/**
 * The total turnover the brewer overview shows: Enumerable.Sum over the
 * brewers' nullable turnovers, which skips nulls and throws OverflowException
 * when a partial sum leaves the range of a C# int.
 */
module TotalTurnover {
  import opened Wrappers
  import opened Domain

  /** True when x is a C# int. */
  predicate InInt32(x: int) {
    -0x8000_0000 <= x < 0x8000_0000
  }

  /** A missing turnover adds nothing. */
  function ValueOrZero(x: Option<Int32>): int {
    if x.Some? then x.value as int else 0
  }

  /** The exact sum of the turnovers that are present. */
  function Total(xs: seq<Option<Int32>>): int {
    if xs == [] then 0 else ValueOrZero(xs[0]) + Total(xs[1..])
  }

  /** Sum continued from the partial sum acc; None stands for the OverflowException. */
  function CheckedSumFrom(acc: Int32, xs: seq<Option<Int32>>): Option<Int32>
    decreases |xs|
  {
    if xs == [] then Some(acc)
    else
      var next := acc as int + ValueOrZero(xs[0]);
      if !InInt32(next) then None else CheckedSumFrom(next as Int32, xs[1..])
  }

  /** Sum(b => b.Turnover) over turnovers listed in enumeration order; the empty sum is 0. */
  function CheckedSum(xs: seq<Option<Int32>>): Option<Int32> {
    CheckedSumFrom(0, xs)
  }

  /** The turnovers of the given brewers, in the same order. */
  function Turnovers(brewers: seq<Brewer>): (ts: seq<Option<Int32>>)
    reads brewers
    ensures |ts| == |brewers|
    ensures forall i | 0 <= i < |brewers| :: ts[i] == brewers[i].turnover
  {
    if brewers == [] then [] else [brewers[0].turnover] + Turnovers(brewers[1..])
  }

  /** The value BrewerController.Index stores as the total turnover. */
  function TotalTurnoverOf(brewers: seq<Brewer>): Option<Int32>
    reads brewers
  {
    CheckedSum(Turnovers(brewers))
  }

  /** Whenever the checked sum succeeds, it is the exact sum. */
  lemma {:induction false} CheckedSumFromIsExact(acc: Int32, xs: seq<Option<Int32>>)
    ensures CheckedSumFrom(acc, xs).Some? ==> CheckedSumFrom(acc, xs).value as int == acc as int + Total(xs)
    decreases |xs|
  {
    if xs != [] {
      var next := acc as int + ValueOrZero(xs[0]);
      if InInt32(next) {
        CheckedSumFromIsExact(next as Int32, xs[1..]);
      }
    }
  }

  /**
   * With no negative turnover the partial sums only grow, so the sum throws
   * exactly when the exact total exceeds int.MaxValue.
   */
  lemma {:induction false} CheckedSumFromNonNegative(acc: Int32, xs: seq<Option<Int32>>)
    requires acc >= 0
    requires forall i | 0 <= i < |xs| :: ValueOrZero(xs[i]) >= 0
    ensures CheckedSumFrom(acc, xs).Some? <==> acc as int + Total(xs) < 0x8000_0000
    decreases |xs|
  {
    if xs != [] {
      var next := acc as int + ValueOrZero(xs[0]);
      assert ValueOrZero(xs[0]) >= 0;
      TotalNonNegative(xs[1..]);
      if InInt32(next) {
        CheckedSumFromNonNegative(next as Int32, xs[1..]);
      }
    }
  }

  lemma {:induction false} TotalNonNegative(xs: seq<Option<Int32>>)
    requires forall i | 0 <= i < |xs| :: ValueOrZero(xs[i]) >= 0
    ensures Total(xs) >= 0
  {
    if xs != [] {
      assert ValueOrZero(xs[0]) >= 0;
      TotalNonNegative(xs[1..]);
    }
  }

  /**
   * Over brewers with no negative turnover (as the Turnover setter guarantees),
   * the total is the exact sum of the turnovers that are set, unless that exceeds int.MaxValue.
   */
  lemma TotalTurnoverOfValidBrewers(brewers: seq<Brewer>)
    requires forall i | 0 <= i < |brewers| :: brewers[i].turnover.Some? ==> brewers[i].turnover.value >= 0
    ensures TotalTurnoverOf(brewers).Some? <==> Total(Turnovers(brewers)) < 0x8000_0000
    ensures TotalTurnoverOf(brewers).Some? ==> TotalTurnoverOf(brewers).value as int == Total(Turnovers(brewers))
  {
    var ts := Turnovers(brewers);
    forall i | 0 <= i < |ts| ensures ValueOrZero(ts[i]) >= 0 {
      assert ts[i] == brewers[i].turnover;
    }
    CheckedSumFromNonNegative(0, ts);
    CheckedSumFromIsExact(0, ts);
  }

  /** Removing one element from a sequence removes exactly its value from the total. */
  lemma {:induction false} TotalRemoveAt(xs: seq<Option<Int32>>, k: nat)
    requires k < |xs|
    ensures Total(xs) == ValueOrZero(xs[k]) + Total(xs[..k] + xs[k + 1..])
  {
    if k > 0 {
      TotalRemoveAt(xs[1..], k - 1);
      assert xs[..k] + xs[k + 1..] == [xs[0]] + (xs[1..][..k - 1] + xs[1..][k..]);
    } else {
      assert xs[..k] + xs[k + 1..] == xs[1..];
    }
  }

  /**
   * The exact total does not depend on the order of the turnovers, so ordering
   * the brewers by name before summing does not change it.
   */
  lemma {:induction false} TotalOfPermutation(xs: seq<Option<Int32>>, ys: seq<Option<Int32>>)
    requires multiset(xs) == multiset(ys)
    ensures Total(xs) == Total(ys)
    decreases |xs|
  {
    if xs == [] {
      assert |multiset(ys)| == 0;
    } else {
      assert xs[0] in multiset(ys);
      var k :| 0 <= k < |ys| && ys[k] == xs[0];
      var rest := ys[..k] + ys[k + 1..];
      assert ys == ys[..k] + [ys[k]] + ys[k + 1..];
      assert multiset(ys) == multiset(ys[..k]) + multiset{ys[k]} + multiset(ys[k + 1..]);
      assert multiset(rest) == multiset(ys[..k]) + multiset(ys[k + 1..]);
      assert xs == [xs[0]] + xs[1..];
      assert multiset(xs) == multiset{xs[0]} + multiset(xs[1..]);
      assert multiset(xs[1..]) == multiset(xs) - multiset{xs[0]};
      assert multiset(rest) == multiset(ys) - multiset{ys[k]};
      TotalRemoveAt(ys, k);
      TotalOfPermutation(xs[1..], rest);
    }
  }
}
