/** Generation that cannot fail on an unseen context. When the last two
    pitches were never a context in training, the step draws uniformly among
    all pitches the model has ever stored as a successor, instead of failing
    the dictionary lookup; every other step is the weighted step of the
    direct generator. */
module Fallback {
  import opened Wrappers
  import opened Pitches
  import opened Dicts
  import opened Sampling
  import opened Training
  import opened Generation

  /** The row key lists of the given contexts, one after the other. */
  function Gather(P: Model, ctxs: seq<Context>): (s: seq<Pitch>)
    requires forall ctx :: ctx in ctxs ==> ctx in P.entries
  {
    if |ctxs| == 0 then []
    else Gather(P, ctxs[..|ctxs| - 1]) + P.entries[ctxs[|ctxs| - 1]].keys
  }

  lemma {:induction false} GatherContents(P: Model, ctxs: seq<Context>, c: Pitch)
    requires forall ctx :: ctx in ctxs ==> ctx in P.entries
    ensures c in Gather(P, ctxs) <==> exists ctx :: ctx in ctxs && c in P.entries[ctx].keys
    decreases |ctxs|
  {
    if |ctxs| > 0 {
      var init, last := ctxs[..|ctxs| - 1], ctxs[|ctxs| - 1];
      GatherContents(P, init, c);
      if c in Gather(P, ctxs) && c !in Gather(P, init) {
        assert c in P.entries[last].keys;
      }
      forall ctx | ctx in ctxs && c in P.entries[ctx].keys
        ensures c in Gather(P, ctxs)
      {
        if ctx != last {
          assert ctx in init;
        }
      }
    }
  }

  /** The elements of s, each once, in order of first appearance. */
  function Dedup(s: seq<Pitch>): (d: seq<Pitch>)
    ensures Distinct(d)
    ensures forall x :: x in d <==> x in s
  {
    if |s| == 0 then []
    else
      var d := Dedup(s[..|s| - 1]);
      assert forall x :: x in s <==> x in s[..|s| - 1] || x == s[|s| - 1];
      if s[|s| - 1] in d then d else d + [s[|s| - 1]]
  }

  lemma PooledSuccessors(P: Model)
    requires Samplable(P)
    ensures forall c :: c in Dedup(Gather(P, P.keys)) <==> exists ctx :: ctx in P.entries && c in P.entries[ctx].entries
    ensures P.keys != [] ==> Dedup(Gather(P, P.keys)) != []
  {
    var vocab := Dedup(Gather(P, P.keys));
    forall c
      ensures c in vocab <==> exists ctx :: ctx in P.entries && c in P.entries[ctx].entries
    {
      GatherContents(P, P.keys, c);
    }
    if P.keys != [] {
      var ctx := P.keys[0];
      var c := P.entries[ctx].keys[0];
      assert c in P.entries[ctx].entries;
      assert c in vocab;
    }
  }

  /** Every pitch stored as a successor of some context, each listed once:
      the pool the fallback draws from. */
  function Continuations(P: Model): (vocab: seq<Pitch>)
    requires Samplable(P)
    ensures Distinct(vocab)
    ensures forall c :: c in vocab <==> exists ctx :: ctx in P.entries && c in P.entries[ctx].entries
    ensures P.keys != [] ==> vocab != []
  {
    PooledSuccessors(P);
    Dedup(Gather(P, P.keys))
  }

  /** One step with the fallback: the weighted choice when the context is
      known, a uniform choice among all stored successors when it is not. */
  function FallbackStep(P: Model, h: seq<Pitch>, u: Unit): (c: Pitch)
    requires Samplable(P) && P.keys != [] && |h| >= 2
    ensures LastContext(h) in P.entries ==> Step(P, h, u) == Some(c)
    ensures LastContext(h) !in P.entries ==> c in Continuations(P)
  {
    var ctx := LastContext(h);
    if ctx in P.entries then WeightedChoice(P.entries[ctx], u)
    else Choose(Continuations(P), u).value
  }

  /** Position i of s is either a transition the model allows, or starts at
      an unseen context and continues with some stored successor. */
  ghost predicate FallbackTransition(P: Model, s: seq<Pitch>, i: nat)
    requires i + 2 < |s|
  {
    || Transition(P, s, i)
    || ((s[i], s[i + 1]) !in P.entries && exists ctx :: ctx in P.entries && s[i + 2] in P.entries[ctx].entries)
  }

  function ExtendWithFallback(P: Model, h: seq<Pitch>, draws: seq<Unit>): (s: seq<Pitch>)
    requires Samplable(P) && P.keys != [] && |h| >= 2
    ensures |s| == |h| + |draws| && s[..|h|] == h
    ensures forall i :: |h| - 2 <= i < |s| - 2 ==> FallbackTransition(P, s, i)
    decreases |draws|
  {
    if |draws| == 0 then h
    else
      var c := FallbackStep(P, h, draws[0]);
      var s := ExtendWithFallback(P, h + [c], draws[1..]);
      FallbackPrepend(P, h, draws[0], s);
      s
  }

  /** A run after one fallback step, seen from before that step. */
  lemma FallbackPrepend(P: Model, h: seq<Pitch>, u: Unit, s: seq<Pitch>)
    requires Samplable(P) && P.keys != [] && |h| >= 2
    requires |s| >= |h| + 1 && s[..|h| + 1] == h + [FallbackStep(P, h, u)]
    requires forall i :: |h| - 1 <= i < |s| - 2 ==> FallbackTransition(P, s, i)
    ensures s[..|h|] == h
    ensures forall i :: |h| - 2 <= i < |s| - 2 ==> FallbackTransition(P, s, i)
  {
    var c := FallbackStep(P, h, u);
    var h' := h + [c];
    assert s[..|h|] == s[..|h'|][..|h|];
    assert s[|h| - 2] == h'[|h| - 2] && s[|h| - 1] == h'[|h| - 1] && s[|h|] == h'[|h|];
    if |h| < |s| - 1 {
      assert FallbackTransition(P, s, |h| - 2) by {
        if LastContext(h) !in P.entries {
          assert c in Continuations(P);
        }
      }
    }
  }

  /** src/main.py, lines 52-65 with the fallback. Only an untrained model, which has no
      context to start from, still fails; every other run yields exactly
      2 + |draws| pitches. */
  function GenerateWithFallback(P: Model, seed: Unit, draws: seq<Unit>): (r: Option<seq<Pitch>>)
    requires Samplable(P)
    ensures r.Some? <==> P.keys != []
    ensures r.Some? ==> |r.value| == 2 + |draws| && (r.value[0], r.value[1]) in P.entries
    ensures r.Some? ==> forall i :: 0 <= i < |r.value| - 2 ==> FallbackTransition(P, r.value, i)
  {
    if P.keys == [] then None
    else
      var start := Choose(P.keys, seed).value;
      var s := ExtendWithFallback(P, [start.0, start.1], draws);
      assert s[..2] == [start.0, start.1];
      Some(s)
  }

  /** Wherever the direct generator succeeds, the fallback generator
      produces the very same pitches from the same draws. */
  lemma {:induction false} FallbackAgreesWithDirect(P: Model, h: seq<Pitch>, draws: seq<Unit>)
    requires Samplable(P) && P.keys != [] && |h| >= 2
    requires Extend(P, h, draws).Some?
    ensures ExtendWithFallback(P, h, draws) == Extend(P, h, draws).value
    decreases |draws|
  {
    if |draws| > 0 {
      var c := Step(P, h, draws[0]).value;
      FallbackAgreesWithDirect(P, h + [c], draws[1..]);
    }
  }

  lemma GenerateWithFallbackAgrees(P: Model, seed: Unit, draws: seq<Unit>)
    requires Samplable(P)
    requires Generate(P, seed, draws).Some?
    ensures GenerateWithFallback(P, seed, draws) == Generate(P, seed, draws)
  {
    var start := Choose(P.keys, seed).value;
    FallbackAgreesWithDirect(P, [start.0, start.1], draws);
  }

  /** The three training pitches that make the direct generator fail
      still give 162 pitches with the fallback. */
  lemma FallbackSurvivesThreeNotes(p: seq<Pitch>, seed: Unit, draws: seq<Unit>)
    requires p == [C4, E4, G4]
    ensures GenerateWithFallback(TrainModel(p), seed, draws).Some?
    ensures |GenerateWithFallback(TrainModel(p), seed, draws).value| == 2 + |draws|
  {
    ThreeNoteModel(p);
    var P := TrainModel(p);
    assert P.keys != [];
  }
}
