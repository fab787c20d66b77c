/** The whole pipeline of the script: train on the input pitches, generate
    162 pitches, give them rhythm over 20 measures, and put the melody, the
    accompaniment and the drums into one score at 80 beats per minute.

    The pipeline uses the generator with the unseen-context fallback and the
    degree chords, the corrections of the direct lookup and of the chord on
    the fifth degree. */
module Composition {
  import opened Wrappers
  import opened Pitches
  import opened Sampling
  import opened Training
  import Generation
  import Fallback
  import Rhythm
  import Harmony
  import Drums

  /** The metronome mark of the score, in quarter notes per minute. */
  const Tempo: nat := 80

  datatype Score = Score(melody: seq<Event>, accompaniment: seq<Event>, drums: seq<Event>, bpm: nat)

  /** The score for training pitches p and the output scale, with every
      random draw supplied: one for the starting context, one per generation
      step, one per melody measure. It exists exactly when training yields a
      context, that is, when p has at least three pitches; the three parts
      then all last 20 measures of 8 eighths. */
  function Compose(p: seq<Pitch>, scale: seq<Pitch>, seed: Unit, steps: seq<Unit>, patterns: seq<Unit>): (r: Option<Score>)
    requires |Harmony.ScaleDegrees(scale)| > 4
    requires |steps| == Generation.GenerationSteps
    requires |patterns| == Rhythm.MelodyMeasures
    ensures r.Some? <==> |p| >= 3
    ensures r.Some? ==> |r.value.melody| <= 120
    ensures r.Some? ==> Eighths(r.value.melody) == 160
    ensures r.Some? ==> Eighths(r.value.accompaniment) == 160
    ensures r.Some? ==> Eighths(r.value.drums) == 160
    ensures r.Some? ==> r.value.bpm == Tempo
  {
    TrainedIffEnoughPitches(p);
    var P := TrainModel(p);
    var pitches :- Fallback.GenerateWithFallback(P, seed, steps);
    Rhythm.ScriptMelodyInRange(pitches, patterns);
    var melody := Rhythm.Melody(pitches, patterns).value;
    Some(Score(melody, Harmony.DegreeAccompaniment(scale, Generation.NumMeasures), Drums.DrumPart(Generation.NumMeasures), Tempo))
  }
}
