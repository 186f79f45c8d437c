/** The median of a report and how far faulty oracles can move it. */
module Median {
  import opened Options
  import opened Ledger
  import opened Reports

  predicate Sorted(s: seq<real>) {
    forall i, j :: 0 <= i < j < |s| ==> s[i] <= s[j]
  }

  function Insert(x: real, s: seq<real>): (r: seq<real>)
    requires Sorted(s)
    ensures Sorted(r) && |r| == |s| + 1
    ensures forall y :: y in r ==> y == x || y in s
  {
    if s == [] || x <= s[0] then [x] + s
    else
      var rest := Insert(x, s[1..]);
      assert forall k :: 0 <= k < |rest| ==> rest[k] in rest;
      [s[0]] + rest
  }

  function Sort(s: seq<real>): (r: seq<real>)
    ensures Sorted(r) && |r| == |s|
    ensures forall y :: y in r ==> y in s
  {
    if s == [] then [] else Insert(s[0], Sort(s[1..]))
  }

  lemma {:induction false} InsertPermutes(x: real, s: seq<real>)
    requires Sorted(s)
    ensures multiset(Insert(x, s)) == multiset(s) + multiset{x}
  {
    if s != [] && x > s[0] {
      InsertPermutes(x, s[1..]);
      assert s == [s[0]] + s[1..];
    }
  }

  lemma {:induction false} SortPermutes(s: seq<real>)
    ensures multiset(Sort(s)) == multiset(s)
  {
    if s != [] {
      SortPermutes(s[1..]);
      InsertPermutes(s[0], Sort(s[1..]));
      assert s == [s[0]] + s[1..];
    }
  }

  lemma SortedHead(s: seq<real>, t: seq<real>)
    requires Sorted(s) && s != [] && t != [] && multiset(s) == multiset(t)
    ensures s[0] <= t[0]
  {
    assert t[0] in multiset(t);
    assert t[0] in s;
    var i :| 0 <= i < |s| && s[i] == t[0];
  }

  /** A sorted sequence is determined by its elements. */
  lemma {:induction false} SortedUnique(s: seq<real>, t: seq<real>)
    requires Sorted(s) && Sorted(t) && |s| == |t| && multiset(s) == multiset(t)
    ensures s == t
  {
    if s != [] {
      SortedHead(s, t);
      SortedHead(t, s);
      TailMultiset(s);
      TailMultiset(t);
      SortedUnique(s[1..], t[1..]);
      assert s == [s[0]] + s[1..] && t == [t[0]] + t[1..];
    }
  }

  lemma TailMultiset(s: seq<real>)
    requires s != []
    ensures multiset(s[1..]) == multiset(s) - multiset{s[0]}
  {
    assert s == [s[0]] + s[1..];
  }

  lemma SortIgnoresOrder(a: seq<real>, b: seq<real>)
    requires multiset(a) == multiset(b)
    ensures Sort(a) == Sort(b) && |a| == |b|
  {
    SortPermutes(a);
    SortPermutes(b);
    assert |multiset(a)| == |a| && |multiset(b)| == |b|;
    SortedUnique(Sort(a), Sort(b));
  }

  function DataOf(observations: seq<Observation>): (data: seq<real>)
    ensures |data| == |observations|
    ensures forall i :: 0 <= i < |data| ==> data[i] == observations[i].data
  {
    seq(|observations|, i requires 0 <= i < |observations| => observations[i].data)
  }

  /** `computeMedian`; the source indexes out of range, and throws, on an empty report. */
  function ComputeMedian(observations: seq<Observation>): (median: Option<real>)
    ensures median.None? <==> observations == []
  {
    var sorted := Sort(DataOf(observations));
    var half := |sorted| / 2;
    if observations == [] then None
    else if |sorted| % 2 == 1 then Some(sorted[half])
    else Some((sorted[half - 1] + sorted[half]) / 2.0)
  }

  /** The order of the observations is irrelevant. */
  lemma MedianIgnoresOrder(a: seq<Observation>, b: seq<Observation>)
    requires multiset(DataOf(a)) == multiset(DataOf(b))
    ensures ComputeMedian(a) == ComputeMedian(b)
  {
    SortIgnoresOrder(DataOf(a), DataOf(b));
  }

  // ----- Counting -----

  function CountBelow(s: seq<real>, bound: real): nat {
    if s == [] then 0 else (if s[0] < bound then 1 else 0) + CountBelow(s[1..], bound)
  }

  function CountAbove(s: seq<real>, bound: real): nat {
    if s == [] then 0 else (if s[0] > bound then 1 else 0) + CountAbove(s[1..], bound)
  }

  lemma {:induction false} InsertCounts(x: real, s: seq<real>, bound: real)
    requires Sorted(s)
    ensures CountBelow(Insert(x, s), bound) == (if x < bound then 1 else 0) + CountBelow(s, bound)
    ensures CountAbove(Insert(x, s), bound) == (if x > bound then 1 else 0) + CountAbove(s, bound)
  {
    if s != [] && x > s[0] {
      InsertCounts(x, s[1..], bound);
      assert Insert(x, s) == [s[0]] + Insert(x, s[1..]);
    } else {
      assert Insert(x, s)[1..] == s;
    }
  }

  lemma {:induction false} SortCounts(s: seq<real>, bound: real)
    ensures CountBelow(Sort(s), bound) == CountBelow(s, bound)
    ensures CountAbove(Sort(s), bound) == CountAbove(s, bound)
  {
    if s != [] {
      SortCounts(s[1..], bound);
      InsertCounts(s[0], Sort(s[1..]), bound);
    }
  }

  /** In a sorted sequence the elements below a bound are the first ones, those above it the last. */
  lemma {:induction false} SortedCounts(s: seq<real>, i: nat, bound: real)
    requires Sorted(s) && i < |s|
    ensures s[i] < bound ==> CountBelow(s, bound) >= i + 1
    ensures s[i] > bound ==> CountAbove(s, bound) >= |s| - i
  {
    if i > 0 {
      SortedCounts(s[1..], i - 1, bound);
    } else if |s| > 1 {
      SortedCounts(s[1..], 0, bound);
    }
  }

  lemma {:induction false} SortedCountBound(s: seq<real>, i: nat, bound: real)
    requires Sorted(s) && i <= |s|
    ensures (forall k :: 0 <= k < i ==> s[k] <= bound) ==> CountAbove(s, bound) <= |s| - i
    ensures (forall k :: i <= k < |s| ==> s[k] >= bound) ==> CountBelow(s, bound) <= i
    decreases |s|
  {
    if s != [] {
      SortedCountBound(s[1..], if i > 0 then i - 1 else 0, bound);
    }
  }

  /** `x` occurs among the data with at most `below` smaller and at most `above` larger ones. */
  predicate Ranked(data: seq<real>, x: real, below: int, above: int) {
    x in data && CountBelow(data, x) <= below && CountAbove(data, x) <= above
  }

  lemma SortedRank(data: seq<real>, i: nat)
    requires i < |data|
    ensures Ranked(data, Sort(data)[i], i, |data| - 1 - i)
  {
    var sorted := Sort(data);
    SortCounts(data, sorted[i]);
    SortedCountBound(sorted, i, sorted[i]);
    SortedCountBound(sorted, i + 1, sorted[i]);
  }

  /** The median is the middle observation, or the mean of the two middle ones: half of the data lie on
      either side. */
  lemma MedianIsMiddle(observations: seq<Observation>) returns (low: real, high: real)
    requires observations != []
    ensures
      var data := DataOf(observations);
      var half := |data| / 2;
      && ComputeMedian(observations) == Some((low + high) / 2.0)
      && Ranked(data, low, (|data| - 1) / 2, half) && Ranked(data, high, half, (|data| - 1) / 2)
      && (|data| % 2 == 1 ==> low == high)
  {
    var data := DataOf(observations);
    var half := |data| / 2;
    var lower := (|data| - 1) / 2;
    low, high := Sort(data)[lower], Sort(data)[half];
    SortedRank(data, lower);
    SortedRank(data, half);
  }

  // ----- Robustness -----

  function FaultyCount(observations: seq<Observation>, faulty: set<PeerId>): nat {
    if observations == [] then 0
    else (if observations[0].oracle in faulty then 1 else 0) + FaultyCount(observations[1..], faulty)
  }

  /** Every observation of a correct oracle lies between `low` and `high`. */
  predicate CorrectWithin(observations: seq<Observation>, faulty: set<PeerId>, low: real, high: real) {
    forall ob :: ob in observations && ob.oracle !in faulty ==> low <= ob.data <= high
  }

  lemma {:induction false} OutsideIsFaulty(observations: seq<Observation>, faulty: set<PeerId>, low: real, high: real)
    requires CorrectWithin(observations, faulty, low, high)
    ensures CountBelow(DataOf(observations), low) <= FaultyCount(observations, faulty)
    ensures CountAbove(DataOf(observations), high) <= FaultyCount(observations, faulty)
  {
    if observations != [] {
      assert DataOf(observations)[1..] == DataOf(observations[1..]);
      assert observations[0] in observations;
      OutsideIsFaulty(observations[1..], faulty, low, high);
    }
  }

  /** While faulty oracles hold fewer than half of the observations, the median stays within the range
      of the correct ones, for an odd and for an even number of observations. */
  lemma MedianWithinCorrect(observations: seq<Observation>, faulty: set<PeerId>, low: real, high: real)
    requires CorrectWithin(observations, faulty, low, high)
    requires 2 * FaultyCount(observations, faulty) < |observations|
    ensures ComputeMedian(observations).Some? && low <= ComputeMedian(observations).value <= high
  {
    var data := DataOf(observations);
    var sorted := Sort(data);
    var half := |sorted| / 2;
    OutsideIsFaulty(observations, faulty, low, high);
    SortCounts(data, low);
    SortCounts(data, high);
    SortedCounts(sorted, half, low);
    SortedCounts(sorted, half, high);
    if |sorted| % 2 == 0 {
      SortedCounts(sorted, half - 1, low);
      SortedCounts(sorted, half - 1, high);
    }
  }

  predicate DistinctOracles(observations: seq<Observation>) {
    forall i, j :: 0 <= i < j < |observations| ==> observations[i].oracle != observations[j].oracle
  }

  lemma {:induction false} DistinctFaultyCount(observations: seq<Observation>, faulty: set<PeerId>)
    requires DistinctOracles(observations)
    ensures FaultyCount(observations, faulty) <= |faulty|
    decreases |observations|
  {
    if observations != [] {
      var first := observations[0].oracle;
      DistinctFaultyCount(observations[1..], faulty - {first});
      SameFaultyCount(observations[1..], faulty, first);
    }
  }

  lemma {:induction false} SameFaultyCount(observations: seq<Observation>, faulty: set<PeerId>, absent: PeerId)
    requires forall i :: 0 <= i < |observations| ==> observations[i].oracle != absent
    ensures FaultyCount(observations, faulty) == FaultyCount(observations, faulty - {absent})
  {
    if observations != [] {
      SameFaultyCount(observations[1..], faulty, absent);
    }
  }

  /** A report of at least 2f + 1 distinct oracles of which at most f are faulty. */
  lemma QuorumMedianRobust(observations: seq<Observation>, faulty: set<PeerId>, f: nat, low: real, high: real)
    requires DistinctOracles(observations) && |observations| >= 2 * f + 1 && |faulty| <= f
    requires CorrectWithin(observations, faulty, low, high)
    ensures ComputeMedian(observations).Some? && low <= ComputeMedian(observations).value <= high
  {
    DistinctFaultyCount(observations, faulty);
    MedianWithinCorrect(observations, faulty, low, high);
  }

  /** The observations with every faulty oracle reporting `lie` instead. */
  function WithLie(observations: seq<Observation>, faulty: set<PeerId>, lie: real): (r: seq<Observation>)
    ensures |r| == |observations|
    ensures forall i :: 0 <= i < |r| ==>
      r[i] == if observations[i].oracle in faulty then Observation(observations[i].oracle, lie) else observations[i]
  {
    seq(|observations|, i requires 0 <= i < |observations| =>
      if observations[i].oracle in faulty then Observation(observations[i].oracle, lie) else observations[i])
  }

  lemma {:induction false} LieCount(observations: seq<Observation>, faulty: set<PeerId>, lie: real, high: real)
    requires lie > high
    ensures CountAbove(DataOf(WithLie(observations, faulty, lie)), high) >= FaultyCount(observations, faulty)
    ensures FaultyCount(WithLie(observations, faulty, lie), faulty) == FaultyCount(observations, faulty)
  {
    if observations != [] {
      LieCount(observations[1..], faulty, lie, high);
      var lied := WithLie(observations, faulty, lie);
      assert lied[1..] == WithLie(observations[1..], faulty, lie);
      assert DataOf(lied)[1..] == DataOf(lied[1..]);
    }
  }

  lemma SortedTail(s: seq<real>, i: nat, bound: real)
    requires Sorted(s) && i < |s| && CountAbove(s, bound) >= |s| - i
    ensures s[i] > bound
  {
    if s[i] <= bound {
      forall k | 0 <= k < i + 1 ensures s[k] <= bound {
        if k < i { assert s[k] <= s[i]; }
      }
      SortedCountBound(s, i + 1, bound);
    }
  }

  lemma {:induction false} LowestOf(s: seq<real>) returns (low: real)
    ensures forall x :: x in s ==> low <= x
  {
    if s == [] {
      low := 0.0;
    } else {
      var rest := LowestOf(s[1..]);
      low := if s[0] < rest then s[0] else rest;
      assert s == [s[0]] + s[1..];
    }
  }

  /** Holding at least half of the observations is enough for the faulty oracles to push the median
      above every correct observation, so the bound of `MedianWithinCorrect` is exact. */
  lemma HalfFaultyBreaksMedian(observations: seq<Observation>, faulty: set<PeerId>, high: real) returns (lie: real)
    requires 0 < |observations| <= 2 * FaultyCount(observations, faulty)
    ensures ComputeMedian(WithLie(observations, faulty, lie)).Some?
    ensures ComputeMedian(WithLie(observations, faulty, lie)).value > high
  {
    var low := LowestOf(DataOf(observations));
    var floor := if low < high then low else high;
    lie := 2.0 * high - floor + 1.0;
    var lied := WithLie(observations, faulty, lie);
    var data := DataOf(lied);
    var sorted := Sort(data);
    var half := |sorted| / 2;
    LieCount(observations, faulty, lie, high);
    SortCounts(data, high);
    LieCount(observations, faulty, lie, lie - 0.5);
    SortCounts(data, lie - 0.5);
    SortedTail(sorted, half, lie - 0.5);
    if |sorted| % 2 == 0 {
      var before := sorted[half - 1];
      assert before in sorted;
      var i :| 0 <= i < |data| && data[i] == before;
      assert DataOf(observations)[i] in DataOf(observations);
      assert floor <= before;
    }
  }

  /** Whatever value the faulty oracles report, the median stays within the range of the correct ones
      exactly when they hold fewer than half of the observations. */
  lemma MedianRobustExactly(observations: seq<Observation>, faulty: set<PeerId>, low: real, high: real)
    requires observations != [] && CorrectWithin(observations, faulty, low, high)
    ensures
      (forall lie: real :: low <= ComputeMedian(WithLie(observations, faulty, lie)).value <= high) <==>
      2 * FaultyCount(observations, faulty) < |observations|
  {
    if 2 * FaultyCount(observations, faulty) < |observations| {
      forall lie: real ensures low <= ComputeMedian(WithLie(observations, faulty, lie)).value <= high {
        var lied := WithLie(observations, faulty, lie);
        LieCount(observations, faulty, lie, lie - 1.0);
        forall ob | ob in lied && ob.oracle !in faulty ensures ob in observations {
          var i :| 0 <= i < |lied| && lied[i] == ob;
          assert lied[i] == observations[i];
        }
        MedianWithinCorrect(lied, faulty, low, high);
      }
    } else {
      var lie := HalfFaultyBreaksMedian(observations, faulty, high);
      assert !(low <= ComputeMedian(WithLie(observations, faulty, lie)).value <= high);
    }
  }
}
