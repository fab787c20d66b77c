/** The drum part: the same eight eighth-note events in every measure. */
module Drums {
  import opened Pitches

  /** src/main.py, lines 111-118: chord, G3, chord, G3, chord, chord, chord, G3, each an
      eighth note. A chord takes its length from its notes, all eighths. */
  const DrumMeasure: seq<Event> := [
    Chord([G2, G3], 1),
    Note(G3, 1),
    Chord([D3, G3], 1),
    Note(G3, 1),
    Chord([G2, G3], 1),
    Chord([G2, G3], 1),
    Chord([D3, G3], 1),
    Note(G3, 1)
  ]

  /** src/main.py, lines 110-118 for n measures: event k is event k mod 8 of the measure,
      so the part has 8 events and 8 eighths per measure. */
  function DrumPart(n: nat): (r: seq<Event>)
    ensures |r| == 8 * n
    ensures forall k :: 0 <= k < |r| ==> r[k] == DrumMeasure[k % 8]
    ensures Eighths(r) == 8 * n
  {
    if n == 0 then []
    else
      var prev := DrumPart(n - 1);
      var r := prev + DrumMeasure;
      assert forall k :: |prev| <= k < |r| ==> k % 8 == k - |prev|;
      assert forall k :: 0 <= k < |DrumMeasure| ==> DrumMeasure[k].eighths == 1;
      EighthsOfEventsWithLength(r, 1);
      r
  }

  lemma BlockOffset(i: nat, j: nat)
    requires j < 8
    ensures (8 * i + j) % 8 == j
  {
  }

  /** Measure i of the drum part, its eighths 8i to 8i + 7, is the fixed
      measure: chords on eighths 1, 3, 5, 6 and 7, the single G3 on 2, 4
      and 8. */
  lemma DrumMeasureShape(n: nat, i: nat)
    requires i < n
    ensures 8 * i + 8 <= |DrumPart(n)|
    ensures DrumPart(n)[8 * i..8 * i + 8] == DrumMeasure
  {
    var r := DrumPart(n);
    var m := r[8 * i..8 * i + 8];
    forall j | 0 <= j < 8
      ensures m[j] == DrumMeasure[j]
    {
      BlockOffset(i, j);
      assert m[j] == r[8 * i + j];
    }
  }
}
