# Markov melody generator, modelled in Dafny

The script `src/main.py` writes a short piece from a training melody in four steps:

- **Training.** It trains a second-order Markov chain on the training pitches. Each pair of consecutive pitches, called a context, maps to how often each pitch followed it. Those counts are then turned into probabilities.
- **Generation.** It starts from a random context and generates 162 pitches. Each new pitch is drawn from the row of the last two pitches.
- **Melody.** It gives those pitches rhythm, one random duration pattern per measure, over 20 measures.
- **Score.** It adds an i–iv / i–v chord accompaniment in C minor and a fixed eighth-note drum loop. It puts the three parts into a score at 80 beats per minute.

This project models that pipeline as pure functions over immutable data:

- **Pitches** are tokens made of letter, alteration and octave. Two pitches are equal when they are spelled the same.
- **Durations** are whole eighth notes, so quarter lengths 0.5, 1 and 2 become 1, 2 and 4.
- **Dictionaries** keep their insertion order (`Dicts.Dict`), as Python's do. That order decides what `random.choice` and `random.choices` return.
- **Random draws** are explicit. Every call to the random source is one caller-supplied value `u` in [0, 1) (`Sampling.Unit`).
- **Failures** are values. The KeyError of the generation lookup and the IndexError of `random.choice` on an empty list become `None`.

Modules, in the order of the script:

| module | what it holds |
|---|---|
| `Pitches` | pitch tokens and events |
| `Dicts` | insertion-ordered dictionaries and sums over them |
| `Training` | counting and normalisation |
| `Sampling` | `random.choice`, and `random.choices` with its running totals and bisection |
| `Generation` | the generation loop as written |
| `Fallback` | the generation loop with a fallback for unseen contexts |
| `Rhythm` | the melody |
| `Harmony` | `generate_chord` and the accompaniment |
| `Drums` | the drum loop |
| `Composition` | the whole score |

## Model

| member | source | states |
|---|---|---|
| Training.Tally | src/main.py:33-42 | One pass of the counting loop adds exactly one to the count of the triple it reads. Every other (context, next) count stays as it was. Rows stay non-empty with counts of at least one. A context seen for the first time goes to the end of the context list and a successor seen for the first time to the end of its row; known ones keep their place, which fixes the order `random.choice` and `random.choices` later draw from. |
| Training.CountsUpTo | src/main.py:32-42 | After the first n passes, every count equals the number of windows among the first n in which that context is followed by that pitch. |
| Training.TransitionCounts | src/main.py:29-42 | The finished matrix stores, for every context and next pitch, the number of training windows holding that triple. It is empty when fewer than three pitches are given. |
| Training.TrainedSuccessors | src/main.py:32-42 | A pitch is stored under a context exactly when it follows that context somewhere in training. Its stored count is that number of occurrences, which is at least one. |
| Training.TrainedContexts | src/main.py:32-37 | A context is a key exactly when it occurs as two consecutive training pitches with a third after them. |
| Training.TallyTotal | src/main.py:39-42 | Each pass raises the sum of all counts by exactly one. |
| Training.TotalCountIsWindows | src/main.py:32-42 | The counts over all contexts add up to `max(0, len(pitches) - 2)`. |
| Training.NormaliseRowIsDistribution | src/main.py:47-49 | A normalised row keeps its keys in order. Each weight is count / total, every weight is positive, and the weights add up to exactly 1. |
| Training.NormaliseRow | src/main.py:47-49 | A normalised row has the same successors as the count row, in the same order. |
| Training.Normalise | src/main.py:46-49 | Normalisation keeps the contexts of the count matrix in their order. Each row keeps its successors in their order. |
| Training.NormaliseIsStochastic | src/main.py:46-49 | After normalisation every row is a probability distribution. Each weight is its count divided by its row's total, and no context or successor is gained or lost. |
| Training.TrainModel | src/main.py:29-49 | The trained matrix is stochastic. It has the same contexts, in the same order, with the same successors as the count matrix. |
| Training.TrainedIffEnoughPitches | src/main.py:32-52 | The matrix has a context to start from exactly when training has at least three pitches. |
| Sampling.Below | src/main.py:52 | A draw u selects position i of n exactly when i <= u * n < i + 1, and the position is always in range. |
| Sampling.Choose | src/main.py:52 | `random.choice` yields an element of the list, and fails exactly when the list is empty. |
| Sampling.Bisect | src/main.py:64 | The search returns the first position in [lo, hi] whose running total exceeds x. It returns hi when no earlier position does. |
| Sampling.WeightedIndex | src/main.py:64 | `random.choices` returns a position whose interval of running totals holds the scaled draw. |
| Sampling.WeightedIndexIff | src/main.py:64 | Position k is chosen if and only if the scaled draw lies between the running totals before and after k, an interval as wide as k's weight. |
| Generation.WeightedChoice | src/main.py:61-64 | The chosen pitch is a key of the row it was drawn from. |
| Generation.WeightedChoiceIff | src/main.py:61-64 | The k-th key of the row is chosen exactly for the draws in its interval of running weights. |
| Generation.SingleSuccessorIgnoresDraws | src/main.py:59-65 | When every context has one successor, the run does not depend on the step draws. |
| Generation.Step | src/main.py:60-64 | A step succeeds if and only if the last two pitches form a context. On success it appends a successor stored under that context. |
| Generation.Extend | src/main.py:59-65 | A successful run keeps the history it started from and adds one pitch per draw. Every new window is a transition the matrix stores. |
| Generation.Generate | src/main.py:52-65 | An untrained matrix fails at the start. A successful run has 2 + steps pitches, starts at a context, and every window of three is a stored transition. |
| Generation.ExtendFailsOnlyOnUnseenContext | src/main.py:60-61 | A failed run failed at the lookup. For some k below the number of draws, the same run over its first k draws succeeds, and the last two pitches it ends on are not a context. |
| Generation.ClosedGenerateSucceeds | src/main.py:52-65 | On a non-empty matrix in which every reachable pair is a context, generation never fails. |
| Generation.GeneratedWindowsObserved | src/main.py:52-65 | Every generated window of three pitches, and the starting pair, occurs in that order in the training pitches. |
| Generation.TrainedModelClosedIff | src/main.py:32-65 | The trained matrix is closed if and only if the last two training pitches also occur earlier as a context. |
| Generation.KeyErrorExample | src/main.py:60-61 | Training on C4 E4 G4 makes every run of two or more steps fail, whatever the draws. |
| Generation.CyclicTuneNeverFails | src/main.py:52-65 | Training on the repeated cycle C4 E4 G4 C4 E4 G4 C4 makes generation succeed for every seed and all draws. |
| Fallback.Continuations | src/main.py:61 | The fallback pool lists each pitch once. It holds exactly the pitches stored as a successor of some context, and is non-empty for a trained matrix. |
| Fallback.FallbackStep | src/main.py:60-64 | On a known context the step is the direct weighted step. On an unseen one it yields a pitch from the pool. |
| Fallback.ExtendWithFallback | src/main.py:59-65 | Every draw adds one pitch, and each new window is a stored transition or starts at an unseen context. |
| Fallback.GenerateWithFallback | src/main.py:52-65 | Generation with the fallback fails only on an untrained matrix. Otherwise it yields 2 + steps pitches starting at a context. |
| Fallback.FallbackAgreesWithDirect | src/main.py:59-65 | Wherever the direct run succeeds, the fallback run is the same pitch sequence. |
| Fallback.GenerateWithFallbackAgrees | src/main.py:52-65 | Whole runs agree whenever the direct run succeeds. |
| Fallback.FallbackSurvivesThreeNotes | src/main.py:60-61 | The training that breaks the direct run still yields 2 + steps pitches with the fallback. |
| Rhythm.PatternOf | src/main.py:68-74 | Every drawn pattern is one of the four, has four to six notes, and fills exactly one measure of 8 eighths. |
| Rhythm.Durations | src/main.py:80-82 | The durations of k measures last 8k eighths and number between 4k and 6k. |
| Rhythm.MelodyFrom | src/main.py:80-88 | The melody exists exactly when the pitches under the cursor suffice. Note i then carries pitch cursor + i with the i-th drawn duration. |
| Rhythm.Melody | src/main.py:77-88 | From pitch 0, note i carries pitch i with the i-th drawn duration. The melody fails exactly when the durations outnumber the pitches. |
| Rhythm.MelodySupplySuffices | src/main.py:80-88 | Six pitches per measure always suffice. The melody then lasts one measure per draw and uses at most six pitches per measure. |
| Rhythm.ScriptMelodyInRange | src/main.py:56-88 | With 162 generated pitches and 20 measures, the melody uses at most 120 pitches, so line 84 stays in range, and it lasts 160 eighths. |
| Harmony.GenerateChord | src/main.py:5-8 | The chord is a half note whose three tones are the scale entries at rank, rank + 2 and rank + 4, the last two reduced modulo the scale length. |
| Harmony.Progression | src/main.py:96-102 | Measure i is the tonic chord, then iv when i is even and v when i is odd. There are two chords and 8 eighths per measure. |
| Harmony.Accompaniment | src/main.py:95-102 | The accompaniment has two chords per measure. Measure i is the chord on degree 0, then the chord on degree 3 when i is even and on degree 4 when i is odd. The part lasts 8 eighths per measure. |
| Harmony.AccompanimentMeasures | src/main.py:95-102 | Measure i of the accompaniment is chord 0 then chord 3 when i is even, and chord 0 then chord 4 when i is odd. The part lasts 8 eighths per measure. |
| Harmony.DiatonicChordsAreTriads | src/main.py:5-8 | On a seven-pitch diatonic list every chord the script asks for is a triad of stacked thirds. |
| Harmony.ClosedScaleDominantIsNotTriad | src/main.py:5-6 | On an eight-pitch list that ends with the tonic an octave up, the chord on degree 4 wraps onto the first pitch, and that chord is not a triad. |
| Harmony.DegreeChordsAreTriads | src/main.py:5-6 | Over the scale degrees every chord is a triad of stacked thirds. This holds for a seven-pitch diatonic list and for an eight-pitch list that closes with the octave. |
| Harmony.DegreeChordsMatchSource | src/main.py:5-8 | On an octave-closed scale the degree chords i and iv are those of the script. The v chord differs only in its top tone, the second degree an octave up. |
| Harmony.DegreeAccompaniment | src/main.py:95-102 | The accompaniment over the degree chords has the same measures: degree chord 0, then degree chord 3 or 4 by the parity of the measure, 8 eighths per measure. |
| Harmony.CMinorChords | src/main.py:20-26 | Over C minor from C3 to C4, the script's v chord is G3 Bb3 C3. The degree chord is G3 Bb3 D4. Chords i and iv agree. |
| Drums.DrumPart | src/main.py:110-118 | The drum part has 8 events per measure, event k being event k mod 8 of the fixed measure, and lasts 8 eighths per measure. |
| Drums.DrumMeasureShape | src/main.py:111-118 | Measure i of the drum part is the fixed measure: chords on eighths 1, 3, 5, 6 and 7, and the single G3 on 2, 4 and 8. |
| Composition.Compose | src/main.py:124-130 | A score exists exactly when training has at least three pitches. Its melody uses at most 120 pitches, all three parts last 160 eighths, and the tempo is 80. |

## Left out

- MIDI input and output (lines 11-13 and 133-137) and the print on line 137 are file I/O. The training pitches are a parameter.
- The filter that keeps only single notes of the second part (line 17) calls into the music library and is left out.
- `MinorScale("C3").getPitches()` (lines 20-26) is library music theory. The scale is a parameter of `Harmony.Accompaniment`, and the C minor list is written out as `Harmony.CMinor`.
- The music library's pitch equality and hashing are left out. Pitches compare by spelling, so enharmonic spellings are different tokens.
- The random generator's state and algorithm are left out. Each draw is a real in [0, 1) supplied by the caller.
- Sampling.Below: `random.choice` draws its index from random bits, not from `random()`. The model takes floor(u * n), which is uniform over the same indices but does not reproduce the index a given generator state would pick.
- Sampling.Bisect: the binary search of `bisect` is modelled as a linear search. Over the increasing running totals of positive weights both return the same position.
- Training.NormaliseRowIsDistribution: floating-point division is left out. Weights are exact reals, so the rows sum to exactly 1, which floats only approximate.
- Instruments (lines 90, 104 and 120) and the score object's layout are library object construction. A score is modelled as its three parts and its tempo.
- Drums.DrumPart: a drum chord is taken to last an eighth, as its two eighth notes do. The library's rule for a chord's duration is not modelled.
- Harmony.GenerateChord: negative ranks, which Python would index from the end of the list, are not modelled. The script only uses 0, 3 and 4.
- Composition.Compose: it assembles the corrected pipeline, with the fallback generator and the degree chords. The as-written generator and chords are modelled separately, as `Generation.Generate` and `Harmony.Accompaniment`, and are not assembled into a score.

## Findings

| source | as written | input that shows it | evidently intended | confidence | as-written member | corrected member |
|---|---|---|---|---|---|---|
| src/main.py:60-61 | The next pitch is looked up with `transition_matrix[current_pitches]` and no fallback, so generation raises KeyError once the last two pitches were never a training context. | Training pitches C4 E4 G4 with any seed. The first step reaches (E4, G4), and the second step's lookup fails. | Generation yields its 162 pitches from every trained matrix. | high, not executed | Generation.KeyErrorExample | Fallback.GenerateWithFallback |
| src/main.py:5-6 | `(rank+4) % len(scale_pitches)` wraps over a list that ends with the tonic an octave up, so degree 4 reaches back to the list's first pitch. | The C minor list C3 D3 Eb3 F3 G3 Ab3 Bb3 C4 with rank 4 gives G3 Bb3 C3, which is not a triad. | The v chord G3 Bb3 D4, a triad of stacked thirds. | medium (assumes the library lists the scale with its closing octave), not executed | Harmony.CMinorChords | Harmony.DegreeChordsAreTriads |
