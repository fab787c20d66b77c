/** Pitch tokens and the timed events that make up a track.

    A pitch is identified by its spelling: letter, alteration and octave.
    Two enharmonic spellings are different tokens. Durations are counted in
    eighth notes, so the quarter lengths 0.5, 1 and 2 used by the script
    become 1, 2 and 4. */
module Pitches {

  /** The seven diatonic letters, in ascending order from C. */
  datatype Letter = C | D | E | F | G | A | B

  function LetterIndex(l: Letter): (i: nat)
    ensures i < 7
  {
    match l
    case C => 0
    case D => 1
    case E => 2
    case F => 3
    case G => 4
    case A => 5
    case B => 6
  }

  /** `alter` counts semitones of alteration: -1 for a flat, 1 for a sharp. */
  datatype Pitch = Pitch(letter: Letter, alter: int, octave: int)

  /** The named pitches the script uses: the drum notes, the C minor scale
      from C3, and the short training melodies of the examples. */
  const G2: Pitch := Pitch(G, 0, 2)
  const C3: Pitch := Pitch(C, 0, 3)
  const D3: Pitch := Pitch(D, 0, 3)
  const Eb3: Pitch := Pitch(E, -1, 3)
  const F3: Pitch := Pitch(F, 0, 3)
  const G3: Pitch := Pitch(G, 0, 3)
  const Ab3: Pitch := Pitch(A, -1, 3)
  const Bb3: Pitch := Pitch(B, -1, 3)
  const C4: Pitch := Pitch(C, 0, 4)
  const E4: Pitch := Pitch(E, 0, 4)
  const G4: Pitch := Pitch(G, 0, 4)

  /** One element of a part: a single note or a chord, with its length in
      eighth notes. */
  datatype Event =
    | Note(pitch: Pitch, eighths: nat)
    | Chord(tones: seq<Pitch>, eighths: nat)

  /** Total length of a part, in eighth notes. */
  function Eighths(track: seq<Event>): nat
  {
    if |track| == 0 then 0 else track[0].eighths + Eighths(track[1..])
  }

  lemma {:induction false} EighthsAppend(s: seq<Event>, t: seq<Event>)
    ensures Eighths(s + t) == Eighths(s) + Eighths(t)
    decreases |s|
  {
    if |s| == 0 {
      assert s + t == t;
    } else {
      assert (s + t)[1..] == s[1..] + t;
      EighthsAppend(s[1..], t);
    }
  }

  /** Parts made of repeated blocks of equal length have a length that is a
      multiple of that block length. */
  lemma {:induction false} EighthsOfEventsWithLength(track: seq<Event>, len: nat)
    requires forall i :: 0 <= i < |track| ==> track[i].eighths == len
    ensures Eighths(track) == len * |track|
    decreases |track|
  {
    if |track| > 0 {
      EighthsOfEventsWithLength(track[1..], len);
    }
  }
}
