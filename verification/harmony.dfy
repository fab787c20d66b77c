/** The accompaniment: triads built by skipping scale degrees, two per
    measure, following the progression i-iv, i-v. */
module Harmony {
  import opened Pitches

  /** A chord lasts a half note, quarter length 2. */
  const ChordEighths: nat := 4

  /** src/main.py, lines 5-8: the triad on degree `rank`, its upper tones two and four
      positions further along the scale list, wrapping around its end. The
      first index is not reduced, so `rank` must lie inside the list. */
  function GenerateChord(scale: seq<Pitch>, rank: nat): (c: Event)
    requires rank < |scale|
    ensures c.Chord? && c.eighths == ChordEighths
    ensures |c.tones| == 3
    ensures c.tones[0] == scale[rank]
    ensures c.tones[1] == scale[(rank + 2) % |scale|]
    ensures c.tones[2] == scale[(rank + 4) % |scale|]
  {
    Chord([scale[rank], scale[(rank + 2) % |scale|], scale[(rank + 4) % |scale|]], ChordEighths)
  }

  /** Measure i of src/main.py, lines 96-102: the tonic chord, then iv when i is even and
      v when i is odd. */
  function Measure(tonic: Event, sub: Event, dom: Event, i: nat): seq<Event>
  {
    [tonic, if i % 2 == 0 then sub else dom]
  }

  /** src/main.py, lines 96-102 for n measures, given the i, iv and v chords: events 2i
      and 2i + 1 are measure i. With half-note chords every measure lasts 8
      eighths. */
  function Progression(tonic: Event, sub: Event, dom: Event, n: nat): (r: seq<Event>)
    requires tonic.eighths == sub.eighths == dom.eighths == ChordEighths
    ensures |r| == 2 * n
    ensures forall i :: 0 <= i < n ==> r[2 * i..2 * i + 2] == Measure(tonic, sub, dom, i)
    ensures Eighths(r) == 8 * n
  {
    if n == 0 then []
    else
      var prev := Progression(tonic, sub, dom, n - 1);
      var m := Measure(tonic, sub, dom, n - 1);
      var r := prev + m;
      MeasuresAppend(tonic, sub, dom, n - 1, prev);
      EighthsOfEventsWithLength(m, ChordEighths);
      EighthsAppend(prev, m);
      r
  }

  /** Appending measure n to the first n measures gives the first n + 1. */
  lemma MeasuresAppend(tonic: Event, sub: Event, dom: Event, n: nat, prev: seq<Event>)
    requires |prev| == 2 * n
    requires forall i :: 0 <= i < n ==> prev[2 * i..2 * i + 2] == Measure(tonic, sub, dom, i)
    ensures forall i :: 0 <= i < n + 1 ==>
      (prev + Measure(tonic, sub, dom, n))[2 * i..2 * i + 2] == Measure(tonic, sub, dom, i)
  {
    var r := prev + Measure(tonic, sub, dom, n);
    forall i | 0 <= i < n + 1
      ensures r[2 * i..2 * i + 2] == Measure(tonic, sub, dom, i)
    {
      if i < n {
        assert r[2 * i..2 * i + 2] == prev[2 * i..2 * i + 2];
      } else {
        assert r[2 * i..2 * i + 2] == Measure(tonic, sub, dom, n);
      }
    }
  }

  /** The degree of the second chord of measure i: 3 (iv) on even measures,
      4 (v) on odd ones. */
  function SecondRank(i: nat): nat
  {
    if i % 2 == 0 then 3 else 4
  }

  /** src/main.py, lines 95-102: the accompaniment the script writes, from the chords of
      lines 5-8. Measure i is the chord on degree 0 followed by the chord on
      degree 3 or 4; every measure lasts 8 eighths. */
  function Accompaniment(scale: seq<Pitch>, n: nat): (r: seq<Event>)
    requires |scale| > 4
    ensures |r| == 2 * n
    ensures forall i :: 0 <= i < n ==>
      r[2 * i..2 * i + 2] == [GenerateChord(scale, 0), GenerateChord(scale, SecondRank(i))]
    ensures Eighths(r) == 8 * n
  {
    AccompanimentChords(scale, n);
    Progression(GenerateChord(scale, 0), GenerateChord(scale, 3), GenerateChord(scale, 4), n)
  }

  lemma AccompanimentChords(scale: seq<Pitch>, n: nat)
    requires |scale| > 4
    ensures var r := Progression(GenerateChord(scale, 0), GenerateChord(scale, 3), GenerateChord(scale, 4), n);
      forall i :: 0 <= i < n ==>
        r[2 * i..2 * i + 2] == [GenerateChord(scale, 0), GenerateChord(scale, SecondRank(i))]
  {
    var tonic, sub, dom := GenerateChord(scale, 0), GenerateChord(scale, 3), GenerateChord(scale, 4);
    var r := Progression(tonic, sub, dom, n);
    forall i | 0 <= i < n
      ensures r[2 * i..2 * i + 2] == [tonic, GenerateChord(scale, SecondRank(i))]
    {
      assert r[2 * i..2 * i + 2] == Measure(tonic, sub, dom, i);
    }
  }

  /** Measure i of the accompaniment: chord(0) then chord(3) when i is even,
      chord(0) then chord(4) when i is odd; 2 chords and 8 eighths per
      measure. */
  lemma AccompanimentMeasures(scale: seq<Pitch>, n: nat, i: nat)
    requires |scale| > 4 && i < n
    ensures |Accompaniment(scale, n)| == 2 * n
    ensures Eighths(Accompaniment(scale, n)) == 8 * n
    ensures Accompaniment(scale, n)[2 * i] == GenerateChord(scale, 0)
    ensures Accompaniment(scale, n)[2 * i + 1] == GenerateChord(scale, if i % 2 == 0 then 3 else 4)
  {
    var r := Accompaniment(scale, n);
    var m := [GenerateChord(scale, 0), GenerateChord(scale, SecondRank(i))];
    assert r[2 * i..2 * i + 2] == m;
    assert r[2 * i] == m[0] && r[2 * i + 1] == m[1];
  }

  /** Letters of the three tones rise by thirds: root, third, fifth. */
  ghost predicate StackedThirds(c: Event)
    requires c.Chord? && |c.tones| == 3
  {
    && LetterIndex(c.tones[1].letter) == (LetterIndex(c.tones[0].letter) + 2) % 7
    && LetterIndex(c.tones[2].letter) == (LetterIndex(c.tones[0].letter) + 4) % 7
  }

  /** Seven pitches on consecutive letters: one octave of a diatonic scale. */
  ghost predicate Diatonic(scale: seq<Pitch>) {
    && |scale| == 7
    && forall i :: 0 <= i < 7 ==> LetterIndex(scale[i].letter) == (LetterIndex(scale[0].letter) + i) % 7
  }

  function OctaveUp(p: Pitch): Pitch
  {
    Pitch(p.letter, p.alter, p.octave + 1)
  }

  /** A diatonic octave followed by its tonic an octave higher: the eight
      pitches a music library lists for one octave of a scale. */
  ghost predicate OctaveClosed(scale: seq<Pitch>) {
    |scale| == 8 && Diatonic(scale[..7]) && scale[7] == OctaveUp(scale[0])
  }

  /** On a seven-pitch diatonic list, every chord the script asks for is a
      triad of stacked thirds. */
  lemma DiatonicChordsAreTriads(scale: seq<Pitch>, rank: nat)
    requires Diatonic(scale) && rank < 7
    ensures StackedThirds(GenerateChord(scale, rank))
  {
    var c := GenerateChord(scale, rank);
    var r0 := LetterIndex(scale[0].letter);
    var root := LetterIndex(c.tones[0].letter);
    assert root == (r0 + rank) % 7;
    assert LetterIndex(c.tones[1].letter) == (r0 + (rank + 2) % 7) % 7;
    assert LetterIndex(c.tones[2].letter) == (r0 + (rank + 4) % 7) % 7;
    ModSeven(r0, rank, 2);
    ModSeven(r0, rank, 4);
  }

  /** Adding on the seven letters: reducing before or after the addition
      gives the same letter. */
  lemma ModSeven(a: nat, b: nat, k: nat)
    ensures (a + (b + k) % 7) % 7 == ((a + b) % 7 + k) % 7
  {
    var q1, q2 := (b + k) / 7, (a + b) / 7;
    assert b + k == 7 * q1 + (b + k) % 7;
    assert a + b == 7 * q2 + (a + b) % 7;
    assert a + (b + k) % 7 == (a + b) % 7 + k + 7 * (q2 - q1);
    ModShift((a + b) % 7 + k, q2 - q1);
  }

  lemma ModShift(x: int, q: int)
    ensures (x + 7 * q) % 7 == x % 7
  {
  }

  /** On the eight-pitch list, the chord on degree 4 (the v chord) wraps
      onto the closing tonic: its top tone is the scale's first pitch, and
      the chord is not a triad of stacked thirds. */
  lemma ClosedScaleDominantIsNotTriad(scale: seq<Pitch>)
    requires OctaveClosed(scale)
    ensures GenerateChord(scale, 4).tones[2] == scale[0]
    ensures !StackedThirds(GenerateChord(scale, 4))
  {
    var c := GenerateChord(scale, 4);
    var r0 := LetterIndex(scale[0].letter);
    assert scale[..7][4] == scale[4];
    assert LetterIndex(c.tones[0].letter) == (r0 + 4) % 7;
    assert c.tones[2] == scale[0];
  }

  /** The scale degrees: the list without a closing octave repeat of the
      tonic, so that wrapping around goes back to the second degree. */
  function ScaleDegrees(scale: seq<Pitch>): (d: seq<Pitch>)
    ensures OctaveClosed(scale) ==> d == scale[..7]
    ensures !(|scale| >= 2 && scale[|scale| - 1] == OctaveUp(scale[0])) ==> d == scale
  {
    if |scale| >= 2 && scale[|scale| - 1] == OctaveUp(scale[0]) then scale[..|scale| - 1] else scale
  }

  /** p raised by k octaves. */
  function Raise(p: Pitch, k: nat): Pitch
  {
    Pitch(p.letter, p.alter, p.octave + k)
  }

  /** The closed-position triad on a degree of d: its tones lie two and
      four degrees higher, an octave up when they pass the end of d. */
  function Stack(d: seq<Pitch>, rank: nat): (c: Event)
    requires rank < |d|
    ensures c.Chord? && c.eighths == ChordEighths && |c.tones| == 3
  {
    var L := |d|;
    Chord([d[rank], Raise(d[(rank + 2) % L], (rank + 2) / L), Raise(d[(rank + 4) % L], (rank + 4) / L)], ChordEighths)
  }

  /** The triad on a degree of the scale, built over its degrees. */
  function DegreeChord(scale: seq<Pitch>, rank: nat): (c: Event)
    requires rank < |ScaleDegrees(scale)|
    ensures c.Chord? && c.eighths == ChordEighths && |c.tones| == 3
  {
    Stack(ScaleDegrees(scale), rank)
  }

  /** Over seven degrees, the chord on each degree explicitly. */
  lemma StackOnSeven(d: seq<Pitch>, rank: nat)
    requires |d| == 7 && rank < 7
    ensures Stack(d, rank).tones[0] == d[rank]
    ensures Stack(d, rank).tones[1] == if rank < 5 then d[rank + 2] else Raise(d[rank - 5], 1)
    ensures Stack(d, rank).tones[2] == if rank < 3 then d[rank + 4] else Raise(d[rank - 3], 1)
  {
    if rank < 3 {
      assert (rank + 2) % 7 == rank + 2 && (rank + 2) / 7 == 0;
      assert (rank + 4) % 7 == rank + 4 && (rank + 4) / 7 == 0;
    } else if rank < 5 {
      assert (rank + 2) % 7 == rank + 2 && (rank + 2) / 7 == 0;
      assert (rank + 4) % 7 == rank - 3 && (rank + 4) / 7 == 1;
    } else {
      assert (rank + 2) % 7 == rank - 5 && (rank + 2) / 7 == 1;
      assert (rank + 4) % 7 == rank - 3 && (rank + 4) / 7 == 1;
    }
  }

  /** Over the scale degrees every chord is a triad of stacked thirds,
      whether the scale is given as its seven pitches or with the closing
      octave as well. */
  lemma DegreeChordsAreTriads(scale: seq<Pitch>, rank: nat)
    requires (Diatonic(scale) || OctaveClosed(scale)) && rank < 7
    ensures StackedThirds(DegreeChord(scale, rank))
  {
    var d := scale[..7];
    if OctaveClosed(scale) {
      DiatonicChordsAreTriads(d, rank);
    } else {
      DiatonicHasNoClosingOctave(scale);
      assert d == scale;
      DiatonicChordsAreTriads(scale, rank);
    }
    StackLetters(d, rank);
  }

  /** A seven-pitch diatonic list does not end on its first pitch an octave
      up: its last letter is the seventh, not the first. */
  lemma DiatonicHasNoClosingOctave(scale: seq<Pitch>)
    requires Diatonic(scale)
    ensures ScaleDegrees(scale) == scale
  {
    var r0 := LetterIndex(scale[0].letter);
    assert LetterIndex(scale[6].letter) == (r0 + 6) % 7;
    assert scale[6].letter != OctaveUp(scale[0]).letter;
  }

  /** Raising a tone by octaves keeps its letter, so a stacked chord has the
      letters of the unreduced one. */
  lemma StackLetters(d: seq<Pitch>, rank: nat)
    requires rank < |d|
    ensures Stack(d, rank).tones[0].letter == GenerateChord(d, rank).tones[0].letter
    ensures Stack(d, rank).tones[1].letter == GenerateChord(d, rank).tones[1].letter
    ensures Stack(d, rank).tones[2].letter == GenerateChord(d, rank).tones[2].letter
  {
  }

  /** On an octave-closed scale, the i and iv degree chords are exactly
      those of src/main.py, lines 5-8, and the v chord differs only in its top tone: the
      second degree an octave up instead of the first pitch of the list. */
  lemma DegreeChordsMatchSource(scale: seq<Pitch>)
    requires OctaveClosed(scale)
    ensures DegreeChord(scale, 0) == GenerateChord(scale, 0)
    ensures DegreeChord(scale, 3) == GenerateChord(scale, 3)
    ensures DegreeChord(scale, 4).tones[..2] == GenerateChord(scale, 4).tones[..2]
    ensures DegreeChord(scale, 4).tones[2] == OctaveUp(scale[1]) != GenerateChord(scale, 4).tones[2]
  {
    var d := scale[..7];
    StackOnSeven(d, 0);
    StackOnSeven(d, 3);
    StackOnSeven(d, 4);
    assert d[0] == scale[0] && d[1] == scale[1] && d[2] == scale[2] && d[3] == scale[3];
    assert d[4] == scale[4] && d[5] == scale[5] && d[6] == scale[6];
    var s0, s3, s4 := DegreeChord(scale, 0), DegreeChord(scale, 3), DegreeChord(scale, 4);
    var g0, g3, g4 := GenerateChord(scale, 0), GenerateChord(scale, 3), GenerateChord(scale, 4);
    assert s0.tones == g0.tones;
    assert s3.tones == g3.tones;
    assert s4.tones[..2] == g4.tones[..2];
    assert g4.tones[2] == scale[0];
    assert LetterIndex(d[1].letter) == (LetterIndex(d[0].letter) + 1) % 7;
  }

  /** The accompaniment over the degree chords: measure i is the degree
      chord on 0 followed by the one on 3 or 4, 8 eighths per measure. */
  function DegreeAccompaniment(scale: seq<Pitch>, n: nat): (r: seq<Event>)
    requires |ScaleDegrees(scale)| > 4
    ensures |r| == 2 * n
    ensures forall i :: 0 <= i < n ==>
      r[2 * i..2 * i + 2] == [DegreeChord(scale, 0), DegreeChord(scale, SecondRank(i))]
    ensures Eighths(r) == 8 * n
  {
    DegreeAccompanimentChords(scale, n);
    Progression(DegreeChord(scale, 0), DegreeChord(scale, 3), DegreeChord(scale, 4), n)
  }

  lemma DegreeAccompanimentChords(scale: seq<Pitch>, n: nat)
    requires |ScaleDegrees(scale)| > 4
    ensures var r := Progression(DegreeChord(scale, 0), DegreeChord(scale, 3), DegreeChord(scale, 4), n);
      forall i :: 0 <= i < n ==>
        r[2 * i..2 * i + 2] == [DegreeChord(scale, 0), DegreeChord(scale, SecondRank(i))]
  {
    var tonic, sub, dom := DegreeChord(scale, 0), DegreeChord(scale, 3), DegreeChord(scale, 4);
    var r := Progression(tonic, sub, dom, n);
    forall i | 0 <= i < n
      ensures r[2 * i..2 * i + 2] == [tonic, DegreeChord(scale, SecondRank(i))]
    {
      assert r[2 * i..2 * i + 2] == Measure(tonic, sub, dom, i);
    }
  }

  /** C minor from C3, listed with its closing tonic C4. */
  const CMinor: seq<Pitch> := [C3, D3, Eb3, F3, G3, Ab3, Bb3, C4]

  /** The v chord of C minor: G3 Bb3 C3 as written, G3 Bb3 D4 over the
      scale degrees; the i and iv chords are the same either way. */
  lemma CMinorChords()
    ensures GenerateChord(CMinor, 4) == Chord([G3, Bb3, C3], ChordEighths)
    ensures DegreeChord(CMinor, 4) == Chord([G3, Bb3, Raise(D3, 1)], ChordEighths)
    ensures GenerateChord(CMinor, 0) == DegreeChord(CMinor, 0) == Chord([C3, Eb3, G3], ChordEighths)
    ensures GenerateChord(CMinor, 3) == DegreeChord(CMinor, 3) == Chord([F3, Ab3, C4], ChordEighths)
  {
    assert ScaleDegrees(CMinor) == [C3, D3, Eb3, F3, G3, Ab3, Bb3];
  }
}
