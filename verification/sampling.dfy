/** The two ways the script draws at random, with the random source made
    explicit: each draw is one value `u` of `random.random()`, a real in
    [0, 1), supplied by the caller.

    A uniform choice from a list picks the element at position floor(u * n)
    of its n elements and fails on an empty list. A weighted choice builds
    the running totals of the weights and returns the first position whose
    running total exceeds u times the total, searching no further than the
    last position. */
module Sampling {
  import opened Wrappers

  /** One value of the random source. */
  type Unit = u: real | 0.0 <= u < 1.0

  lemma ScaledDrawBounds(u: Unit, n: nat)
    requires n > 0
    ensures 0.0 <= u * n as real < n as real
  {
  }

  /** The index a draw selects among n equally likely positions: position i
      is selected by exactly the draws in [i/n, (i+1)/n). */
  function Below(n: nat, u: Unit): (i: nat)
    requires n > 0
    ensures i < n
    ensures i as real <= u * n as real < (i + 1) as real
  {
    ScaledDrawBounds(u, n);
    (u * n as real).Floor
  }

  /** A uniform choice from a list: `None` stands for the IndexError raised on an
      empty list. */
  function Choose<T>(xs: seq<T>, u: Unit): (r: Option<T>)
    ensures r.Some? <==> |xs| > 0
    ensures r.Some? ==> r.value in xs
  {
    if |xs| == 0 then None else Some(xs[Below(|xs|, u)])
  }

  /** Running total of the first i weights. */
  function Prefix(ws: seq<real>, i: nat): real
    requires i <= |ws|
  {
    if i == 0 then 0.0 else Prefix(ws, i - 1) + ws[i - 1]
  }

  ghost predicate AllPositive(ws: seq<real>) {
    forall i :: 0 <= i < |ws| ==> ws[i] > 0.0
  }

  /** Binary search over running totals: the first position in [lo, hi) whose
      running total exceeds x, or hi when there is none. A linear search
      returns the same position as the binary search because running totals
      of positive weights increase. */
  function Bisect(ws: seq<real>, x: real, lo: nat, hi: nat): (k: nat)
    requires lo <= hi < |ws|
    requires forall j :: 1 <= j <= lo ==> Prefix(ws, j) <= x
    ensures lo <= k <= hi
    ensures forall j :: 1 <= j <= k ==> Prefix(ws, j) <= x
    ensures k == hi || Prefix(ws, k + 1) > x
    decreases hi - lo
  {
    if lo == hi then hi
    else if Prefix(ws, lo + 1) > x then lo
    else Bisect(ws, x, lo + 1, hi)
  }

  /** A draw scaled to a positive total stays below it. */
  function Scale(u: Unit, total: real): (x: real)
    requires total > 0.0
    ensures 0.0 <= x < total
  {
    u * total
  }

  lemma {:induction false} PrefixPositive(ws: seq<real>, i: nat)
    requires AllPositive(ws) && i <= |ws|
    ensures i > 0 ==> Prefix(ws, i) > 0.0
    ensures i == 0 ==> Prefix(ws, i) == 0.0
    decreases i
  {
    if i > 0 {
      PrefixPositive(ws, i - 1);
    }
  }

  /** The draw scaled to the total weight, the point the running totals are
      searched for; it lies below that total. */
  function ScaledDraw(ws: seq<real>, u: Unit): (x: real)
    requires |ws| > 0 && AllPositive(ws)
    ensures 0.0 <= x < Prefix(ws, |ws|)
  {
    PrefixPositive(ws, |ws|);
    Scale(u, Prefix(ws, |ws|))
  }

  /** The position a weighted choice returns for draw u. Position k
      is returned exactly for the draws whose scaled value falls between
      the running totals before and after k, an interval as wide as ws[k]. */
  function WeightedIndex(ws: seq<real>, u: Unit): (k: nat)
    requires |ws| > 0 && AllPositive(ws)
    ensures k < |ws|
    ensures Prefix(ws, k) <= ScaledDraw(ws, u) < Prefix(ws, k + 1)
  {
    var x := ScaledDraw(ws, u);
    var k := Bisect(ws, x, 0, |ws| - 1);
    assert Prefix(ws, k) <= x by {
      if k == 0 {
      } else {
        assert 1 <= k <= k;
      }
    }
    assert x < Prefix(ws, k + 1) by {
      if k == |ws| - 1 {
        assert k + 1 == |ws|;
      }
    }
    k
  }

  lemma {:induction false} PrefixIncreasing(ws: seq<real>, i: nat, j: nat)
    requires AllPositive(ws) && i < j <= |ws|
    ensures Prefix(ws, i) < Prefix(ws, j)
    decreases j - i
  {
    if i + 1 < j {
      PrefixIncreasing(ws, i, j - 1);
    }
  }

  /** Two positions whose intervals both contain x are the same position. */
  lemma IntervalUnique(ws: seq<real>, x: real, k: nat, r: nat)
    requires AllPositive(ws) && k < |ws| && r < |ws|
    requires Prefix(ws, k) <= x < Prefix(ws, k + 1)
    requires Prefix(ws, r) <= x < Prefix(ws, r + 1)
    ensures k == r
  {
    if r < k {
      if r + 1 < k {
        PrefixIncreasing(ws, r + 1, k);
      }
    } else if k < r {
      if k + 1 < r {
        PrefixIncreasing(ws, k + 1, r);
      }
    }
  }

  /** The interval condition determines the chosen position: each draw
      selects one position and no other. */
  lemma WeightedIndexIff(ws: seq<real>, u: Unit, k: nat)
    requires |ws| > 0 && AllPositive(ws) && k < |ws|
    ensures WeightedIndex(ws, u) == k <==> Prefix(ws, k) <= ScaledDraw(ws, u) < Prefix(ws, k + 1)
  {
    var r := WeightedIndex(ws, u);
    var x := ScaledDraw(ws, u);
    if Prefix(ws, k) <= x < Prefix(ws, k + 1) {
      IntervalUnique(ws, x, k, r);
    }
  }
}
