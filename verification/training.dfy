/** Training of the second-order Markov chain: counting, for every pair of
    consecutive pitches (a context), how often each pitch follows it, then
    turning the counts of each context into probabilities. */
module Training {
  import opened Pitches
  import opened Dicts

  /** Two consecutive pitches, the state of the chain. */
  type Context = (Pitch, Pitch)

  /** Next pitch -> number of times it followed one context. */
  type Row = Dict<Pitch, nat>

  /** The transition matrix while it still holds counts. */
  type Counts = Dict<Context, Row>

  /** Next pitch -> probability. */
  type Weights = Dict<Pitch, real>

  /** The transition matrix after normalisation. */
  type Model = Dict<Context, Weights>

  /** How many (context, next) triples a pitch sequence contains:
      two fewer than the pitches, and none when there are fewer than two. */
  function NumWindows(p: seq<Pitch>): nat
  {
    if |p| < 2 then 0 else |p| - 2
  }

  /** The triple starting at position i is `ctx` followed by `next`. */
  predicate TripleAt(p: seq<Pitch>, i: nat, ctx: Context, next: Pitch)
    requires i + 2 < |p|
  {
    p[i] == ctx.0 && p[i + 1] == ctx.1 && p[i + 2] == next
  }

  /** Number of positions i < n at which `ctx` is followed by `next`. */
  function Occurrences(p: seq<Pitch>, n: nat, ctx: Context, next: Pitch): nat
    requires n <= NumWindows(p)
  {
    if n == 0 then 0
    else Occurrences(p, n - 1, ctx, next) + (if TripleAt(p, n - 1, ctx, next) then 1 else 0)
  }

  /** `next` was seen right after `ctx` somewhere in the training pitches. */
  ghost predicate Observed(p: seq<Pitch>, ctx: Context, next: Pitch) {
    exists i :: 0 <= i < NumWindows(p) && TripleAt(p, i, ctx, next)
  }

  /** `ctx` occurs as a pair of consecutive pitches followed by a third one. */
  ghost predicate ContextObserved(p: seq<Pitch>, ctx: Context) {
    exists i :: 0 <= i < NumWindows(p) && p[i] == ctx.0 && p[i + 1] == ctx.1
  }

  /** The shape every count matrix built by the script has: each key listed
      once, each row non-empty, each stored count at least one. */
  ghost predicate WellFormed(m: Counts) {
    && m.Valid()
    && RowsValid(m.entries)
    && forall ctx :: ctx in m.entries ==> CountRow(m.entries[ctx])
  }

  /** A row of counts that is non-empty and holds only positive counts. */
  ghost predicate CountRow(row: Row) {
    row.keys != [] && forall c :: c in row.entries ==> row.entries[c] >= 1
  }

  /** Every row lists each of its keys once. */
  ghost predicate RowsValid(rows: map<Context, Row>) {
    forall ctx :: ctx in rows ==> rows[ctx].Valid()
  }

  /** The stored count of `next` after `ctx`, zero when either key is absent. */
  function CountOf(m: Counts, ctx: Context, next: Pitch): nat
  {
    if ctx in m.entries && next in m.entries[ctx].entries then m.entries[ctx].entries[next] else 0
  }

  /** One iteration of the counting loop: create the context's row if it is
      missing, create the next pitch's counter if it is missing, add one. */
  function Tally(m: Counts, ctx: Context, next: Pitch): (r: Counts)
    requires WellFormed(m)
    ensures WellFormed(r)
    ensures forall x, y :: CountOf(r, x, y) == CountOf(m, x, y) + (if x == ctx && y == next then 1 else 0)
    ensures ctx in r.entries
    // a new context goes to the end of the key list, and a new successor to
    // the end of its row; known ones keep their place
    ensures r.keys == if ctx in m.entries then m.keys else m.keys + [ctx]
    ensures r.entries[ctx].keys ==
      if ctx in m.entries && next in m.entries[ctx].entries then m.entries[ctx].keys
      else if ctx in m.entries then m.entries[ctx].keys + [next]
      else [next]
  {
    var row := if ctx in m.entries then m.entries[ctx] else EmptyDict();
    var count := if next in row.entries then row.entries[next] else 0;
    TallyShape(m, ctx, next, row, count);
    m.Put(ctx, row.Put(next, count + 1))
  }

  lemma TallyShape(m: Counts, ctx: Context, next: Pitch, row: Row, count: nat)
    requires WellFormed(m)
    requires row == if ctx in m.entries then m.entries[ctx] else EmptyDict()
    requires count == if next in row.entries then row.entries[next] else 0
    ensures WellFormed(m.Put(ctx, row.Put(next, count + 1)))
    ensures forall x, y ::
      CountOf(m.Put(ctx, row.Put(next, count + 1)), x, y) == CountOf(m, x, y) + (if x == ctx && y == next then 1 else 0)
  {
    var newRow := row.Put(next, count + 1);
    TallyKeepsShape(m, ctx, newRow, row, next, count);
    TallyCounts(m, ctx, newRow, row, next, count);
  }

  lemma TallyKeepsShape(m: Counts, ctx: Context, newRow: Row, row: Row, next: Pitch, count: nat)
    requires WellFormed(m)
    requires row == if ctx in m.entries then m.entries[ctx] else EmptyDict()
    requires newRow == row.Put(next, count + 1)
    ensures WellFormed(m.Put(ctx, newRow))
  {
    var r := m.Put(ctx, newRow);
    assert r.entries == m.entries[ctx := newRow];
    IncrementedRow(row, next, count);
    RowTotalsPut(m.entries, ctx, newRow);
    forall x | x in r.entries
      ensures CountRow(r.entries[x])
    {
      if x != ctx {
        assert r.entries[x] == m.entries[x];
      }
    }
  }

  /** A row after one increment is a row of positive counts. */
  lemma IncrementedRow(row: Row, next: Pitch, count: nat)
    requires row.Valid() && forall c :: c in row.entries ==> row.entries[c] >= 1
    ensures CountRow(row.Put(next, count + 1))
  {
    var newRow := row.Put(next, count + 1);
    assert newRow.entries == row.entries[next := count + 1];
    assert next in newRow.keys;
  }

  lemma TallyCounts(m: Counts, ctx: Context, newRow: Row, row: Row, next: Pitch, count: nat)
    requires m.Valid() && row.Valid()
    requires row == if ctx in m.entries then m.entries[ctx] else EmptyDict()
    requires count == if next in row.entries then row.entries[next] else 0
    requires newRow == row.Put(next, count + 1)
    ensures forall x, y ::
      CountOf(m.Put(ctx, newRow), x, y) == CountOf(m, x, y) + (if x == ctx && y == next then 1 else 0)
  {
    var r := m.Put(ctx, newRow);
    assert r.entries == m.entries[ctx := newRow];
    assert newRow.entries == row.entries[next := count + 1];
    forall x, y
      ensures CountOf(r, x, y) == CountOf(m, x, y) + (if x == ctx && y == next then 1 else 0)
    {
      if x != ctx {
        assert x in r.entries <==> x in m.entries;
        if x in r.entries {
          assert r.entries[x] == m.entries[x];
        }
      } else if y != next {
        assert y in newRow.entries <==> y in row.entries;
      }
    }
  }

  /** The count matrix after the first n iterations of the counting loop. */
  function CountsUpTo(p: seq<Pitch>, n: nat): (m: Counts)
    requires n <= NumWindows(p)
    ensures WellFormed(m)
    ensures forall ctx, next :: CountOf(m, ctx, next) == Occurrences(p, n, ctx, next)
  {
    if n == 0 then EmptyDict()
    else
      var i := n - 1;
      var m := CountsUpTo(p, i);
      var r := Tally(m, (p[i], p[i + 1]), p[i + 2]);
      CountsStep(p, n, m, r);
      r
  }

  /** One more window counted: the counts of the first n - 1 windows plus
      the n-th triple are the counts of the first n windows. */
  lemma CountsStep(p: seq<Pitch>, n: nat, m: Counts, r: Counts)
    requires 0 < n <= NumWindows(p)
    requires forall ctx, next :: CountOf(m, ctx, next) == Occurrences(p, n - 1, ctx, next)
    requires forall x, y ::
      CountOf(r, x, y) == CountOf(m, x, y) + (if x == (p[n - 1], p[n]) && y == p[n + 1] then 1 else 0)
    ensures forall ctx, next :: CountOf(r, ctx, next) == Occurrences(p, n, ctx, next)
  {
    forall ctx, next
      ensures CountOf(r, ctx, next) == Occurrences(p, n, ctx, next)
    {
      assert TripleAt(p, n - 1, ctx, next) <==> ctx == (p[n - 1], p[n]) && next == p[n + 1];
    }
  }

  /** The count matrix the whole counting loop builds. */
  function TransitionCounts(p: seq<Pitch>): (m: Counts)
    ensures WellFormed(m)
    ensures forall ctx, next :: CountOf(m, ctx, next) == Occurrences(p, NumWindows(p), ctx, next)
    ensures |p| < 3 ==> m.keys == []
  {
    CountsUpTo(p, NumWindows(p))
  }

  lemma {:induction false} OccurrencesPositive(p: seq<Pitch>, n: nat, ctx: Context, next: Pitch)
    requires n <= NumWindows(p)
    ensures Occurrences(p, n, ctx, next) > 0 <==> exists i :: 0 <= i < n && TripleAt(p, i, ctx, next)
    decreases n
  {
    if n > 0 {
      OccurrencesPositive(p, n - 1, ctx, next);
    }
  }

  /** A pitch is stored under a context exactly when it was seen after that
      context, and its count is the number of times it was. */
  lemma TrainedSuccessors(p: seq<Pitch>, ctx: Context, next: Pitch)
    ensures var m := TransitionCounts(p);
      && (ctx in m.entries && next in m.entries[ctx].entries <==> Observed(p, ctx, next))
      && (ctx in m.entries && next in m.entries[ctx].entries ==>
            m.entries[ctx].entries[next] == Occurrences(p, NumWindows(p), ctx, next) >= 1)
  {
    var m := TransitionCounts(p);
    OccurrencesPositive(p, NumWindows(p), ctx, next);
    assert CountOf(m, ctx, next) == Occurrences(p, NumWindows(p), ctx, next);
  }

  /** A context is a key of the matrix exactly when it occurs in the training
      pitches with a third pitch after it. */
  lemma TrainedContexts(p: seq<Pitch>, ctx: Context)
    ensures ctx in TransitionCounts(p).entries <==> ContextObserved(p, ctx)
  {
    var m := TransitionCounts(p);
    var n := NumWindows(p);
    if ctx in m.entries {
      var row := m.entries[ctx];
      var c := row.keys[0];
      assert c in row.entries;
      assert CountOf(m, ctx, c) >= 1;
      OccurrencesPositive(p, n, ctx, c);
      var i :| 0 <= i < n && TripleAt(p, i, ctx, c);
      assert p[i] == ctx.0 && p[i + 1] == ctx.1;
    }
    if ContextObserved(p, ctx) {
      var i :| 0 <= i < n && p[i] == ctx.0 && p[i + 1] == ctx.1;
      assert TripleAt(p, i, ctx, p[i + 2]);
      OccurrencesPositive(p, n, ctx, p[i + 2]);
      assert CountOf(m, ctx, p[i + 2]) > 0;
    }
  }

  /** The sum of the counts of one row. */
  function RowTotal(row: Row): nat
    requires row.Valid()
  {
    Sum(row.keys, row.entries)
  }

  lemma RowTotalPositive(row: Row)
    requires row.Valid() && row.keys != []
    requires forall c :: c in row.entries ==> row.entries[c] >= 1
    ensures RowTotal(row) >= 1
  {
    assert row.keys[|row.keys| - 1] in row.entries;
  }

  /** Each context mapped to the sum of its row. */
  function RowTotals(rows: map<Context, Row>): map<Context, nat>
    requires RowsValid(rows)
  {
    map ctx | ctx in rows :: RowTotal(rows[ctx])
  }

  /** The sum of all counts over all contexts. */
  function TotalCount(m: Counts): nat
    requires m.Valid() && RowsValid(m.entries)
  {
    Sum(m.keys, RowTotals(m.entries))
  }

  lemma TallyRowTotal(row: Row, next: Pitch, count: nat)
    requires row.Valid()
    requires count == if next in row.entries then row.entries[next] else 0
    ensures RowTotal(row.Put(next, count + 1)) == RowTotal(row) + 1
  {
    if next in row.entries {
      SumUpdate(row.keys, row.entries, next, count + 1);
    } else {
      SumAppend(row.keys, next, row.entries[next := count + 1]);
      SumFrame(row.keys, row.entries, next, count + 1);
    }
  }

  lemma RowTotalsPut(rows: map<Context, Row>, ctx: Context, newRow: Row)
    requires RowsValid(rows) && newRow.Valid()
    ensures RowsValid(rows[ctx := newRow])
    ensures RowTotals(rows[ctx := newRow]) == RowTotals(rows)[ctx := RowTotal(newRow)]
  {
    var after := rows[ctx := newRow];
    assert RowsValid(after) by {
      forall k | k in after
        ensures after[k].Valid()
      {
        if k != ctx {
          assert after[k] == rows[k];
        }
      }
    }
    var lhs, rhs := RowTotals(after), RowTotals(rows)[ctx := RowTotal(newRow)];
    assert lhs.Keys == rhs.Keys;
    forall k | k in lhs
      ensures lhs[k] == rhs[k]
    {
      if k != ctx {
        assert after[k] == rows[k];
      }
    }
  }

  /** Storing a row under a context replaces that context's share of the
      grand total by the new row's total. */
  lemma TotalCountPut(m: Counts, ctx: Context, newRow: Row)
    requires m.Valid() && RowsValid(m.entries) && newRow.Valid()
    ensures RowsValid(m.Put(ctx, newRow).entries)
    ensures TotalCount(m.Put(ctx, newRow)) + (if ctx in m.entries then RowTotal(m.entries[ctx]) else 0)
      == TotalCount(m) + RowTotal(newRow)
  {
    var r := m.Put(ctx, newRow);
    var t := RowTotals(m.entries);
    var v := RowTotal(newRow);
    RowTotalsPut(m.entries, ctx, newRow);
    assert RowTotals(r.entries) == t[ctx := v];
    if ctx in m.entries {
      SumUpdate(m.keys, t, ctx, v);
    } else {
      SumNewKey(m.keys, t, ctx, v);
    }
  }

  /** Each iteration of the counting loop adds exactly one to the grand total. */
  lemma TallyTotal(m: Counts, ctx: Context, next: Pitch)
    requires WellFormed(m)
    ensures TotalCount(Tally(m, ctx, next)) == TotalCount(m) + 1
  {
    var row := if ctx in m.entries then m.entries[ctx] else EmptyDict();
    var count := if next in row.entries then row.entries[next] else 0;
    var newRow := row.Put(next, count + 1);
    assert Tally(m, ctx, next) == m.Put(ctx, newRow);
    TallyRowTotal(row, next, count);
    TotalCountPut(m, ctx, newRow);
    assert ctx !in m.entries ==> RowTotal(row) == 0;
  }

  lemma {:induction false} CountsUpToTotal(p: seq<Pitch>, n: nat)
    requires n <= NumWindows(p)
    ensures TotalCount(CountsUpTo(p, n)) == n
    decreases n
  {
    if n > 0 {
      var i := n - 1;
      var m := CountsUpTo(p, i);
      CountsUpToTotal(p, i);
      TallyTotal(m, (p[i], p[i + 1]), p[i + 2]);
      assert CountsUpTo(p, n) == Tally(m, (p[i], p[i + 1]), p[i + 2]);
    }
  }

  /** All counts together add up to the number of triples in the training
      pitches, two fewer than the pitches and never below zero. */
  lemma TotalCountIsWindows(p: seq<Pitch>)
    ensures TotalCount(TransitionCounts(p)) == NumWindows(p)
    ensures TotalCount(TransitionCounts(p)) == if |p| < 2 then 0 else |p| - 2
  {
    CountsUpToTotal(p, NumWindows(p));
  }

  /** src/main.py, lines 47-49 for one context: divide every count by the row's total. */
  function NormaliseRow(row: Row): (w: Weights)
    requires row.Valid()
    requires forall c :: c in row.entries ==> row.entries[c] >= 1
    ensures w.keys == row.keys
    ensures w.entries.Keys == row.entries.Keys
  {
    var total := RowTotal(row);
    if row.keys == [] then Dict(row.keys, map[])
    else
      RowTotalPositive(row);
      Dict(row.keys, map c | c in row.entries :: row.entries[c] as real / total as real)
  }

  /** src/main.py, lines 46-49: normalise every row in place; keys keep their order. */
  function Normalise(m: Counts): (P: Model)
    requires WellFormed(m)
    ensures P.keys == m.keys
    ensures P.entries.Keys == m.entries.Keys
    ensures forall ctx :: ctx in m.entries ==>
      && P.entries[ctx].keys == m.entries[ctx].keys
      && P.entries[ctx].entries.Keys == m.entries[ctx].entries.Keys
  {
    Dict(m.keys, map ctx | ctx in m.entries :: NormaliseRow(m.entries[ctx]))
  }

  /** A matrix of probability distributions: every row lists its keys once,
      is non-empty, has only positive weights, and its weights add up to 1. */
  ghost predicate Stochastic(P: Model) {
    && P.Valid()
    && forall ctx :: ctx in P.entries ==>
         && P.entries[ctx].Valid()
         && P.entries[ctx].keys != []
         && (forall c :: c in P.entries[ctx].entries ==> P.entries[ctx].entries[c] > 0.0)
         && RealSum(P.entries[ctx].keys, P.entries[ctx].entries) == 1.0
  }

  /** One normalised row is a probability distribution over the same keys,
      each weight being the count divided by the row's total. */
  lemma NormaliseRowIsDistribution(row: Row)
    requires row.Valid() && row.keys != []
    requires forall c :: c in row.entries ==> row.entries[c] >= 1
    ensures var w := NormaliseRow(row);
      && w.Valid()
      && w.keys == row.keys
      && (forall c :: c in w.entries ==> w.entries[c] > 0.0)
      && (forall c :: c in row.entries ==> w.entries[c] == row.entries[c] as real / RowTotal(row) as real)
      && RealSum(w.keys, w.entries) == 1.0
  {
    var w := NormaliseRow(row);
    RowTotalPositive(row);
    var total := RowTotal(row) as real;
    assert w == Dict(row.keys, map c | c in row.entries :: row.entries[c] as real / total);
    forall c | c in w.entries
      ensures w.entries[c] > 0.0
    {
      QuotientPositive(row.entries[c] as real, total);
    }
    RealSumScaled(row.keys, row.entries, w.entries, total);
    assert Sum(row.keys, row.entries) as real == total;
    SelfQuotient(total);
  }

  lemma SelfQuotient(x: real)
    requires x > 0.0
    ensures x / x == 1.0
  {
  }

  lemma QuotientPositive(x: real, y: real)
    requires x > 0.0 && y > 0.0
    ensures x / y > 0.0
  {
  }

  /** Every normalised weight is the count divided by the context's total,
      the weights of a context add up to exactly 1, and no key is gained or
      lost. */
  lemma NormaliseIsStochastic(m: Counts)
    requires WellFormed(m)
    ensures Stochastic(Normalise(m))
    ensures forall ctx :: ctx in m.entries ==>
      && Normalise(m).entries[ctx].keys == m.entries[ctx].keys
      && forall c :: c in m.entries[ctx].entries ==>
           Normalise(m).entries[ctx].entries[c] == m.entries[ctx].entries[c] as real / RowTotal(m.entries[ctx]) as real
  {
    var P := Normalise(m);
    forall ctx | ctx in m.entries
      ensures P.entries[ctx] == NormaliseRow(m.entries[ctx])
      ensures var w := P.entries[ctx];
        && w.Valid() && w.keys != [] && w.keys == m.entries[ctx].keys
        && (forall c :: c in w.entries ==> w.entries[c] > 0.0)
        && (forall c :: c in m.entries[ctx].entries ==>
              w.entries[c] == m.entries[ctx].entries[c] as real / RowTotal(m.entries[ctx]) as real)
        && RealSum(w.keys, w.entries) == 1.0
    {
      NormaliseRowIsDistribution(m.entries[ctx]);
    }
  }

  /** The probabilities the script samples from: the normalised counts. */
  function TrainModel(p: seq<Pitch>): (P: Model)
    ensures Stochastic(P)
    ensures P.keys == TransitionCounts(p).keys
    ensures P.entries.Keys == TransitionCounts(p).entries.Keys
    ensures forall ctx :: ctx in P.entries ==>
      P.entries[ctx].entries.Keys == TransitionCounts(p).entries[ctx].entries.Keys
  {
    NormaliseIsStochastic(TransitionCounts(p));
    Normalise(TransitionCounts(p))
  }

  /** Training yields at least one context exactly when it is given at least
      three pitches. */
  lemma TrainedIffEnoughPitches(p: seq<Pitch>)
    ensures TrainModel(p).keys != [] <==> |p| >= 3
  {
    if |p| >= 3 {
      TrainedContexts(p, (p[0], p[1]));
      assert (p[0], p[1]) in TransitionCounts(p).keys;
    }
  }
}
