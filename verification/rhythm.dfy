/** Rhythm assignment for the melody: for each of 20 measures a duration
    pattern is drawn, and one generated pitch is taken, in order, for every
    duration of the pattern. */
module Rhythm {
  import opened Wrappers
  import opened Pitches
  import opened Sampling

  /** The duration patterns, in eighth notes; each fills one 4/4 measure. */
  const Patterns: seq<seq<nat>> := [
    [2, 2, 2, 2],
    [1, 2, 1, 1, 1, 2],
    [1, 1, 2, 2, 1, 1],
    [2, 2, 1, 1, 2]
  ]

  /** The number of measures the melody loop runs: the literal bound 20. */
  const MelodyMeasures: nat := 20

  /** One 4/4 measure, in eighth notes. */
  const MeasureEighths: nat := 8

  /** The most notes any pattern asks for. */
  const MaxPatternLength: nat := 6

  /** Sum of durations. */
  function Total(d: seq<nat>): nat
  {
    if |d| == 0 then 0 else d[0] + Total(d[1..])
  }

  lemma {:induction false} TotalAppend(a: seq<nat>, b: seq<nat>)
    ensures Total(a + b) == Total(a) + Total(b)
    decreases |a|
  {
    if |a| == 0 {
      assert a + b == b;
    } else {
      assert (a + b)[1..] == a[1..] + b;
      TotalAppend(a[1..], b);
    }
  }

  /** A uniform draw among the duration patterns: one of the four patterns; every one of
      them has four to six notes and lasts exactly one measure. */
  function PatternOf(u: Unit): (d: seq<nat>)
    ensures d in Patterns
    ensures Total(d) == MeasureEighths
    ensures 4 <= |d| <= MaxPatternLength
  {
    var d := Patterns[Below(|Patterns|, u)];
    assert Total(Patterns[0]) == 8 && Total(Patterns[1]) == 8;
    assert Total(Patterns[2]) == 8 && Total(Patterns[3]) == 8;
    d
  }

  /** The durations of all measures, one pattern per draw. */
  function Durations(draws: seq<Unit>): (d: seq<nat>)
    ensures Total(d) == MeasureEighths * |draws|
    ensures 4 * |draws| <= |d| <= MaxPatternLength * |draws|
  {
    if |draws| == 0 then []
    else
      var rest := Durations(draws[1..]);
      TotalAppend(PatternOf(draws[0]), rest);
      PatternOf(draws[0]) + rest
  }

  /** src/main.py, lines 80-88 from pitch index `cursor` on: for every duration, a note
      with the pitch under the cursor, which then moves on by one. `None`
      stands for the IndexError raised when the cursor runs off the end of
      the generated pitches. */
  function MelodyFrom(pitches: seq<Pitch>, cursor: nat, draws: seq<Unit>): (r: Option<seq<Event>>)
    requires cursor <= |pitches|
    ensures r.Some? <==> cursor + |Durations(draws)| <= |pitches|
    ensures r.Some? ==> |r.value| == |Durations(draws)|
    ensures r.Some? ==> forall i :: 0 <= i < |r.value| ==>
      r.value[i] == Note(pitches[cursor + i], Durations(draws)[i])
    decreases |draws|
  {
    if |draws| == 0 then Some([])
    else
      var pattern := PatternOf(draws[0]);
      var later := Durations(draws[1..]);
      assert Durations(draws) == pattern + later;
      if cursor + |pattern| > |pitches| then None
      else
        var measure := MeasureNotes(pitches, cursor, pattern);
        var rest := MelodyFrom(pitches, cursor + |pattern|, draws[1..]);
        if rest.None? then None
        else
          JoinMeasures(pitches, cursor, pattern, later, measure, rest.value);
          Some(measure + rest.value)
  }

  /** One measure: the pitches under the cursor, with the pattern's
      durations. */
  function MeasureNotes(pitches: seq<Pitch>, cursor: nat, pattern: seq<nat>): (m: seq<Event>)
    requires cursor + |pattern| <= |pitches|
    ensures |m| == |pattern|
    ensures forall j :: 0 <= j < |m| ==> m[j] == Note(pitches[cursor + j], pattern[j])
  {
    seq(|pattern|, j requires 0 <= j < |pattern| => Note(pitches[cursor + j], pattern[j]))
  }

  lemma JoinMeasures(pitches: seq<Pitch>, cursor: nat, pattern: seq<nat>, later: seq<nat>,
                     measure: seq<Event>, rest: seq<Event>)
    requires |measure| == |pattern| && |rest| == |later|
    requires cursor + |pattern| + |later| <= |pitches|
    requires forall j :: 0 <= j < |measure| ==> measure[j] == Note(pitches[cursor + j], pattern[j])
    requires forall j :: 0 <= j < |rest| ==> rest[j] == Note(pitches[cursor + |pattern| + j], later[j])
    ensures forall i :: 0 <= i < |measure + rest| ==>
      (measure + rest)[i] == Note(pitches[cursor + i], (pattern + later)[i])
  {
    forall i | 0 <= i < |measure + rest|
      ensures (measure + rest)[i] == Note(pitches[cursor + i], (pattern + later)[i])
    {
      if i >= |measure| {
        var j := i - |measure|;
        assert rest[j] == Note(pitches[cursor + |pattern| + j], later[j]);
      }
    }
  }

  /** The melody part built from the generated pitches, starting at pitch 0. */
  function Melody(pitches: seq<Pitch>, draws: seq<Unit>): (r: Option<seq<Event>>)
    ensures r.Some? <==> |Durations(draws)| <= |pitches|
    ensures r.Some? ==> |r.value| == |Durations(draws)|
    ensures r.Some? ==> forall i :: 0 <= i < |r.value| ==>
      r.value[i] == Note(pitches[i], Durations(draws)[i])
  {
    MelodyFrom(pitches, 0, draws)
  }

  lemma {:induction false} EighthsOfNotes(notes: seq<Event>, d: seq<nat>)
    requires |notes| == |d|
    requires forall i :: 0 <= i < |notes| ==> notes[i].eighths == d[i]
    ensures Eighths(notes) == Total(d)
    decreases |d|
  {
    if |d| > 0 {
      EighthsOfNotes(notes[1..], d[1..]);
    }
  }

  /** With at least six pitches per measure there are always enough
      pitches, and the melody then lasts exactly one measure per draw; it
      uses up to six pitches per measure. */
  lemma MelodySupplySuffices(pitches: seq<Pitch>, draws: seq<Unit>)
    requires MaxPatternLength * |draws| <= |pitches|
    ensures Melody(pitches, draws).Some?
    ensures |Melody(pitches, draws).value| <= MaxPatternLength * |draws|
    ensures Eighths(Melody(pitches, draws).value) == MeasureEighths * |draws|
  {
    var notes := Melody(pitches, draws).value;
    EighthsOfNotes(notes, Durations(draws));
  }

  /** The script's numbers: 20 measures take at most 120 of the 162
      generated pitches, so the lookup at src/main.py line 84 stays in range, and the
      melody lasts 20 measures of 8 eighths. */
  lemma ScriptMelodyInRange(pitches: seq<Pitch>, draws: seq<Unit>)
    requires |pitches| == 2 + 2 * (MelodyMeasures * 4)
    requires |draws| == MelodyMeasures
    ensures Melody(pitches, draws).Some?
    ensures |Melody(pitches, draws).value| <= 120 < |pitches|
    ensures Eighths(Melody(pitches, draws).value) == 160
  {
    MelodySupplySuffices(pitches, draws);
  }
}
