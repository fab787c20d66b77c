/** Generation of a pitch sequence from the trained chain: a random context
    seeds the output, then each step looks up the last two pitches and
    appends a successor drawn with the stored probabilities. */
module Generation {
  import opened Wrappers
  import opened Pitches
  import opened Dicts
  import opened Sampling
  import opened Training

  /** The script's measure count. */
  const NumMeasures: nat := 20

  /** The number of generation steps: two per quarter note of the 20 measures. */
  const GenerationSteps: nat := 2 * (NumMeasures * 4)

  /** What a weighted draw needs of every row it is given: at least one
      key, and positive weights. */
  ghost predicate Samplable(P: Model) {
    && P.Valid()
    && forall ctx :: ctx in P.entries ==>
         && P.entries[ctx].Valid()
         && P.entries[ctx].keys != []
         && forall c :: c in P.entries[ctx].entries ==> P.entries[ctx].entries[c] > 0.0
  }

  /** The context of a history: its last two pitches. */
  function LastContext(h: seq<Pitch>): Context
    requires |h| >= 2
  {
    (h[|h| - 2], h[|h| - 1])
  }

  /** Position i of s starts a triple the model allows: its first two
      pitches form a context and the third is stored under it. */
  ghost predicate Transition(P: Model, s: seq<Pitch>, i: nat)
    requires i + 2 < |s|
  {
    (s[i], s[i + 1]) in P.entries && s[i + 2] in P.entries[(s[i], s[i + 1])].entries
  }

  ghost predicate PositiveRow(row: Weights) {
    row.Valid() && row.keys != [] && forall c :: c in row.entries ==> row.entries[c] > 0.0
  }

  /** A weighted draw among the keys of a row, in their insertion order,
      with the row's weights as the relative chances. */
  function WeightedChoice(row: Weights, u: Unit): (c: Pitch)
    requires PositiveRow(row)
    ensures c in row.entries
  {
    var ws := row.Values();
    assert AllPositive(ws) by {
      forall i | 0 <= i < |ws|
        ensures ws[i] > 0.0
      {
        assert row.keys[i] in row.entries;
      }
    }
    row.keys[WeightedIndex(ws, u)]
  }

  /** The k-th key of a row is chosen exactly by the draws whose scaled value
      falls in the k-th interval of the running totals of the weights. */
  lemma WeightedChoiceIff(row: Weights, u: Unit, k: nat)
    requires PositiveRow(row) && k < |row.keys|
    ensures var ws := row.Values();
      AllPositive(ws) &&
      (WeightedChoice(row, u) == row.keys[k] <==> Prefix(ws, k) <= ScaledDraw(ws, u) < Prefix(ws, k + 1))
  {
    var ws := row.Values();
    assert AllPositive(ws) by {
      forall i | 0 <= i < |ws|
        ensures ws[i] > 0.0
      {
        assert row.keys[i] in row.entries;
      }
    }
    WeightedIndexIff(ws, u, k);
  }

  /** A row with a single key is chosen from whatever the draw. */
  lemma SingleKeyChoice(row: Weights, u: Unit, v: Unit)
    requires PositiveRow(row) && |row.keys| == 1
    ensures WeightedChoice(row, u) == WeightedChoice(row, v) == row.keys[0]
  {
  }

  /** One iteration of the generation loop. `None` stands for the KeyError
      the lookup of the context in the matrix raises when the last
      two pitches were never a context in training. */
  function Step(P: Model, h: seq<Pitch>, u: Unit): (r: Option<Pitch>)
    requires Samplable(P) && |h| >= 2
    ensures r.Some? <==> LastContext(h) in P.entries
    ensures r.Some? ==> r.value in P.entries[LastContext(h)].entries
  {
    var ctx := LastContext(h);
    if ctx in P.entries then Some(WeightedChoice(P.entries[ctx], u)) else None
  }

  /** Runs one generation step per draw, appending to history h. */
  function Extend(P: Model, h: seq<Pitch>, draws: seq<Unit>): (r: Option<seq<Pitch>>)
    requires Samplable(P) && |h| >= 2
    ensures r.Some? ==> |r.value| == |h| + |draws| && r.value[..|h|] == h
    ensures r.Some? ==> forall i :: |h| - 2 <= i < |r.value| - 2 ==> Transition(P, r.value, i)
    decreases |draws|
  {
    if |draws| == 0 then Some(h)
    else
      var c :- Step(P, h, draws[0]);
      var r := Extend(P, h + [c], draws[1..]);
      if r.None? then r
      else
        PartialPrepend(P, h, c, r.value);
        r
  }

  /** src/main.py, lines 52-65: pick the starting context with `random.choice` over the
      keys (an IndexError, `None`, when there are none), then run one step
      per draw. */
  function Generate(P: Model, seed: Unit, draws: seq<Unit>): (r: Option<seq<Pitch>>)
    requires Samplable(P)
    ensures P.keys == [] ==> r.None?
    ensures r.Some? ==> |r.value| == 2 + |draws| && (r.value[0], r.value[1]) in P.entries
    ensures r.Some? ==> forall i :: 0 <= i < |r.value| - 2 ==> Transition(P, r.value, i)
  {
    var start :- Choose(P.keys, seed);
    var r := Extend(P, [start.0, start.1], draws);
    assert r.Some? ==> r.value[..2] == [start.0, start.1];
    r
  }

  /** s extends h by steps the model allows. */
  ghost predicate Partial(P: Model, h: seq<Pitch>, s: seq<Pitch>)
    requires |h| >= 2
  {
    |h| <= |s| && s[..|h|] == h && forall i :: |h| - 2 <= i < |s| - 2 ==> Transition(P, s, i)
  }

  /** The only way generation fails is the missing-key lookup: a run that
      fails got, after its first k draws, to a history whose last two
      pitches are not a context of the model, and the next lookup failed. */
  lemma {:induction false} ExtendFailsOnlyOnUnseenContext(P: Model, h: seq<Pitch>, draws: seq<Unit>)
    requires Samplable(P) && |h| >= 2
    requires Extend(P, h, draws).None?
    ensures exists k ::
      && 0 <= k < |draws|
      && Extend(P, h, draws[..k]).Some?
      && LastContext(Extend(P, h, draws[..k]).value) !in P.entries
    decreases |draws|
  {
    var st := Step(P, h, draws[0]);
    if st.None? {
      assert Extend(P, h, draws[..0]) == Some(h);
    } else {
      var c := st.value;
      ExtendFailsOnlyOnUnseenContext(P, h + [c], draws[1..]);
      var k :|
        && 0 <= k < |draws[1..]|
        && Extend(P, h + [c], draws[1..][..k]).Some?
        && LastContext(Extend(P, h + [c], draws[1..][..k]).value) !in P.entries;
      ExtendOnePrefix(P, h, draws, k);
    }
  }

  /** Running the first k + 1 draws is one step followed by the next k. */
  lemma ExtendOnePrefix(P: Model, h: seq<Pitch>, draws: seq<Unit>, k: nat)
    requires Samplable(P) && |h| >= 2 && k < |draws|
    requires Step(P, h, draws[0]).Some?
    ensures Extend(P, h, draws[..k + 1]) == Extend(P, h + [Step(P, h, draws[0]).value], draws[1..][..k])
  {
    var d := draws[..k + 1];
    assert d[0] == draws[0];
    assert d[1..] == draws[1..][..k];
  }

  lemma PartialSelf(P: Model, h: seq<Pitch>)
    requires |h| >= 2
    ensures Partial(P, h, h)
  {
    assert h[..|h|] == h;
  }

  /** A partial run after one allowed step is a partial run before it. */
  lemma PartialPrepend(P: Model, h: seq<Pitch>, c: Pitch, s: seq<Pitch>)
    requires |h| >= 2 && LastContext(h) in P.entries && c in P.entries[LastContext(h)].entries
    requires Partial(P, h + [c], s)
    ensures Partial(P, h, s)
  {
    var h' := h + [c];
    assert s[..|h|] == s[..|h'|][..|h|];
    assert Transition(P, s, |h| - 2) by {
      assert s[|h| - 2] == h'[|h| - 2] && s[|h| - 1] == h'[|h| - 1] && s[|h|] == h'[|h|];
    }
  }

  /** A model is closed when every context it can step into is itself a
      context: for every stored triple (a, b, c), (b, c) is a key. */
  ghost predicate Closed(P: Model) {
    forall ctx, c :: ctx in P.entries && c in P.entries[ctx].entries ==> (ctx.1, c) in P.entries
  }

  lemma {:induction false} ClosedExtendSucceeds(P: Model, h: seq<Pitch>, draws: seq<Unit>)
    requires Samplable(P) && Closed(P) && |h| >= 2 && LastContext(h) in P.entries
    ensures Extend(P, h, draws).Some?
    decreases |draws|
  {
    if |draws| > 0 {
      var c := Step(P, h, draws[0]).value;
      assert LastContext(h + [c]) == (LastContext(h).1, c);
      ClosedExtendSucceeds(P, h + [c], draws[1..]);
    }
  }

  /** On a closed, non-empty model the direct lookup never fails. */
  lemma ClosedGenerateSucceeds(P: Model, seed: Unit, draws: seq<Unit>)
    requires Samplable(P) && Closed(P) && P.keys != []
    ensures Generate(P, seed, draws).Some?
  {
    var start := Choose(P.keys, seed).value;
    assert start in P.entries;
    ClosedExtendSucceeds(P, [start.0, start.1], draws);
  }

  /** When every context has a single successor, the draws of the steps do
      not matter: the run is fixed by its starting context. */
  lemma {:induction false} SingleSuccessorIgnoresDraws(P: Model, h: seq<Pitch>, d1: seq<Unit>, d2: seq<Unit>)
    requires Samplable(P) && |h| >= 2 && |d1| == |d2|
    requires forall ctx :: ctx in P.entries ==> |P.entries[ctx].keys| == 1
    ensures Extend(P, h, d1) == Extend(P, h, d2)
    decreases |d1|
  {
    if |d1| > 0 && LastContext(h) in P.entries {
      SingleKeyChoice(P.entries[LastContext(h)], d1[0], d2[0]);
      SingleSuccessorIgnoresDraws(P, h + [Step(P, h, d1[0]).value], d1[1..], d2[1..]);
    }
  }

  /** Generating from the trained model only ever reproduces what training
      saw: the seed is a pair of consecutive training pitches, and every three
      consecutive generated pitches occur in that order in training. */
  lemma GeneratedWindowsObserved(p: seq<Pitch>, seed: Unit, draws: seq<Unit>)
    requires Generate(TrainModel(p), seed, draws).Some?
    ensures var s := Generate(TrainModel(p), seed, draws).value;
      && |s| == 2 + |draws|
      && ContextObserved(p, (s[0], s[1]))
      && forall i :: 0 <= i < |s| - 2 ==> Observed(p, (s[i], s[i + 1]), s[i + 2])
  {
    var P := TrainModel(p);
    var s := Generate(P, seed, draws).value;
    TrainedContexts(p, (s[0], s[1]));
    forall i | 0 <= i < |s| - 2
      ensures Observed(p, (s[i], s[i + 1]), s[i + 2])
    {
      assert Transition(P, s, i);
      TrainedSuccessors(p, (s[i], s[i + 1]), s[i + 2]);
    }
  }

  /** The trained model is closed exactly when the last two training pitches
      also occur, earlier, as a context; only then can no run of the chain
      walk into a pair it has never seen. */
  lemma TrainedModelClosedIff(p: seq<Pitch>)
    requires |p| >= 3
    ensures Closed(TrainModel(p)) <==> ContextObserved(p, (p[|p| - 2], p[|p| - 1]))
  {
    var P := TrainModel(p);
    var n := |p|;
    var last := (p[n - 2], p[n - 1]);
    if ContextObserved(p, last) {
      forall ctx, c | ctx in P.entries && c in P.entries[ctx].entries
        ensures (ctx.1, c) in P.entries
      {
        TrainedSuccessors(p, ctx, c);
        var i :| 0 <= i < NumWindows(p) && TripleAt(p, i, ctx, c);
        if i + 1 < NumWindows(p) {
          assert p[i + 1] == ctx.1 && p[i + 2] == c;
          TrainedContexts(p, (ctx.1, c));
        } else {
          assert (ctx.1, c) == last;
          TrainedContexts(p, last);
        }
      }
    }
    if Closed(P) {
      var ctx := (p[n - 3], p[n - 2]);
      assert TripleAt(p, n - 3, ctx, p[n - 1]);
      TrainedSuccessors(p, ctx, p[n - 1]);
      TrainedContexts(p, last);
    }
  }

  lemma ThreeNoteCounts(p: seq<Pitch>)
    requires p == [C4, E4, G4]
    ensures TransitionCounts(p) == Dict([(C4, E4)], map[(C4, E4) := Dict([G4], map[G4 := 1])])
  {
    assert NumWindows(p) == 1;
    assert CountsUpTo(p, 0) == EmptyDict();
    assert CountsUpTo(p, 1) == Tally(EmptyDict(), (C4, E4), G4);
    var row: Row := EmptyDict();
    assert row.Put(G4, 1) == Dict([G4], map[G4 := 1]);
  }

  /** Training on C4 E4 G4 yields the one context (C4, E4), followed only
      by G4. */
  lemma ThreeNoteModel(p: seq<Pitch>)
    requires p == [C4, E4, G4]
    ensures Samplable(TrainModel(p))
    ensures TrainModel(p).keys == [(C4, E4)]
    ensures TrainModel(p).entries[(C4, E4)].entries.Keys == {G4}
  {
    ThreeNoteCounts(p);
    StochasticIsSamplable(TrainModel(p));
  }

  lemma StochasticIsSamplable(P: Model)
    requires Stochastic(P)
    ensures Samplable(P)
  {
  }

  /** A context with a single stored successor steps to it whatever the draw. */
  lemma OnlySuccessorStep(P: Model, h: seq<Pitch>, u: Unit, c: Pitch)
    requires Samplable(P) && |h| >= 2 && LastContext(h) in P.entries
    requires P.entries[LastContext(h)].entries.Keys == {c}
    ensures Step(P, h, u) == Some(c)
  {
  }

  /** Three training pitches give one context, (C4, E4), whose only
      successor is G4. Every run therefore reaches (E4, G4) after one step,
      and the second step's lookup fails: with the script's 160 steps, no
      seed and no draws avoid the KeyError. */
  lemma KeyErrorExample(p: seq<Pitch>, seed: Unit, draws: seq<Unit>)
    requires p == [C4, E4, G4]
    requires |draws| >= 2
    ensures Generate(TrainModel(p), seed, draws).None?
  {
    ThreeNoteModel(p);
    OneContextFails(TrainModel(p), seed, draws);
  }

  /** A model whose only context is (C4, E4), followed only by G4, always
      steps into (E4, G4) and then fails. */
  lemma OneContextFails(P: Model, seed: Unit, draws: seq<Unit>)
    requires Samplable(P) && |draws| >= 2
    requires P.keys == [(C4, E4)] && P.entries[(C4, E4)].entries.Keys == {G4}
    ensures Generate(P, seed, draws).None?
  {
    assert Choose(P.keys, seed) == Some((C4, E4));
    OnlySuccessorStep(P, [C4, E4], draws[0], G4);
    assert LastContext([C4, E4, G4]) !in P.entries by {
      assert (E4, G4) !in P.keys;
    }
    SecondStepFails(P, [C4, E4], G4, draws);
  }

  lemma SecondStepFails(P: Model, h: seq<Pitch>, c: Pitch, draws: seq<Unit>)
    requires Samplable(P) && |h| >= 2 && |draws| >= 2
    requires Step(P, h, draws[0]) == Some(c)
    requires Step(P, h + [c], draws[1]).None?
    ensures Extend(P, h, draws).None?
  {
    assert draws[1..][0] == draws[1];
  }

  /** The training melody of the three-note cycle C4 E4 G4: its last two
      pitches (G4, C4) occur earlier as a context, so generation never fails,
      whatever the draws. */
  lemma CyclicTuneNeverFails(seed: Unit, draws: seq<Unit>)
    ensures Generate(TrainModel([C4, E4, G4, C4, E4, G4, C4]), seed, draws).Some?
  {
    var p := [C4, E4, G4, C4, E4, G4, C4];
    assert p[2] == G4 && p[3] == C4;
    assert ContextObserved(p, (p[5], p[6])) by {
      assert p[2] == p[5] && p[3] == p[6];
    }
    TrainedModelClosedIff(p);
    TrainedContexts(p, (C4, E4));
    assert TrainModel(p).keys != [];
    ClosedGenerateSucceeds(TrainModel(p), seed, draws);
  }
}
