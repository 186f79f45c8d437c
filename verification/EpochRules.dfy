/** The vote over recorded peer epochs that amplification and agreement both take: among the values
    above a bound that more than `threshold` peers support, take the first one in visiting order. */
module EpochRules {
  import opened Options
  import opened Ledger
  import opened Decimal

  /** Highest epoch recorded for each peer. */
  type PeerEpochs = map<PeerId, nat>

  const NO_EPOCH: int := -1

  /** The peers whose recorded epoch is at least `epoch`. */
  ghost function Supporters(peers: PeerEpochs, epoch: int): set<PeerId> {
    set p | p in peers && peers[p] >= epoch
  }

  ghost predicate Candidate(peers: PeerEpochs, bound: nat, v: nat) {
    bound < v && v in peers.Values
  }

  ghost predicate Supported(peers: PeerEpochs, bound: nat, threshold: int, v: nat) {
    Candidate(peers, bound, v) && |Supporters(peers, v)| > threshold
  }

  /** `r` is the supported candidate that a descending string order visits first, or `NO_EPOCH`. */
  ghost predicate IsPick(peers: PeerEpochs, bound: nat, threshold: int, r: int) {
    if r < 0 then
      r == NO_EPOCH && forall v: nat :: !Supported(peers, bound, threshold, v)
    else
      && Supported(peers, bound, threshold, r)
      && forall v: nat :: Supported(peers, bound, threshold, v) ==> v == r || StringLess(v, r)
  }

  lemma PickUnique(peers: PeerEpochs, bound: nat, threshold: int, r: int, s: int)
    requires IsPick(peers, bound, threshold, r) && IsPick(peers, bound, threshold, s)
    ensures r == s
  {
    if 0 <= r && 0 <= s {
      StringLessTotal(r, s);
    }
  }

  lemma {:induction false} StringGreatest(s: set<nat>) returns (top: nat)
    requires s != {}
    ensures top in s && forall v :: v in s ==> v == top || StringLess(v, top)
  {
    var x :| x in s;
    if s == {x} {
      top := x;
    } else {
      var rest := StringGreatest(s - {x});
      StringLessTotal(x, rest);
      top := if StringLess(rest, x) then x else rest;
      forall v | v in s ensures v == top || StringLess(v, top) {
        if v != x && v != rest && top == x {
          StringLessTransitive(v, rest, x);
        }
      }
    }
  }

  lemma PickExists(peers: PeerEpochs, bound: nat, threshold: int) returns (r: int)
    ensures IsPick(peers, bound, threshold, r)
  {
    var supported := set v | v in peers.Values && Supported(peers, bound, threshold, v);
    if supported == {} {
      forall v: nat ensures !Supported(peers, bound, threshold, v) {
        assert v !in supported;
      }
      r := NO_EPOCH;
    } else {
      r := StringGreatest(supported);
    }
  }

  /** The outcome of the vote. */
  ghost function Pick(peers: PeerEpochs, bound: nat, threshold: int): (r: int)
    ensures IsPick(peers, bound, threshold, r)
  {
    assert exists x :: IsPick(peers, bound, threshold, x) by {
      var x := PickExists(peers, bound, threshold);
    }
    var r :| IsPick(peers, bound, threshold, r);
    r
  }

  // ----- What every visiting order gives -----

  lemma SupportersAntitone(peers: PeerEpochs, d: int, e: int)
    requires d <= e
    ensures Supporters(peers, e) <= Supporters(peers, d)
    ensures |Supporters(peers, e)| <= |Supporters(peers, d)|
  {
    SubsetSize(Supporters(peers, e), Supporters(peers, d));
  }

  lemma {:induction false} SmallestOf(s: set<nat>) returns (least: nat)
    requires s != {}
    ensures least in s && forall v :: v in s ==> least <= v
  {
    var x :| x in s;
    if s == {x} {
      least := x;
    } else {
      var rest := SmallestOf(s - {x});
      least := if x < rest then x else rest;
      assert forall v :: v in s ==> v == x || v in s - {x};
    }
  }

  /** The smallest recorded epoch above the bound has every peer above the bound as supporter. */
  lemma LeastAbove(peers: PeerEpochs, bound: nat) returns (least: nat)
    requires Supporters(peers, bound + 1) != {}
    ensures Candidate(peers, bound, least)
    ensures Supporters(peers, least) == Supporters(peers, bound + 1)
    ensures Supporters(peers, least + 1) < Supporters(peers, least)
  {
    var above := Supporters(peers, bound + 1);
    var values := set p | p in above :: peers[p];
    var p :| p in above;
    assert peers[p] in values;
    least := SmallestOf(values);
    assert forall q :: q in above ==> peers[q] in values;
    var q :| q in above && peers[q] == least;
    assert q in Supporters(peers, least) && q !in Supporters(peers, least + 1);
  }

  /** The vote succeeds exactly when more than `threshold` peers are above the bound. */
  lemma PickSucceedsExactly(peers: PeerEpochs, bound: nat, threshold: int)
    requires 0 <= threshold
    ensures Pick(peers, bound, threshold) != NO_EPOCH <==> |Supporters(peers, bound + 1)| > threshold
  {
    var r := Pick(peers, bound, threshold);
    if r != NO_EPOCH {
      SupportersAntitone(peers, bound + 1, r);
    }
    if |Supporters(peers, bound + 1)| > threshold {
      var least := LeastAbove(peers, bound);
      assert Supported(peers, bound, threshold, least);
    }
  }

  /** Whenever the higher quorum picks an epoch, the lower quorum, started from a bound at least as
      high but still below that epoch, picks one at least as large: both visit in the same order. */
  lemma LowerQuorumPicksNoLess(peers: PeerEpochs, low: nat, lowBound: nat, high: nat, highBound: nat)
    requires low <= high && highBound <= lowBound
    requires Pick(peers, highBound, high) > lowBound
    ensures Pick(peers, lowBound, low) >= Pick(peers, highBound, high)
  {
    var a, b := Pick(peers, lowBound, low), Pick(peers, highBound, high);
    assert Supported(peers, lowBound, low, b);
    assert Supported(peers, lowBound, low, a);
    if a < b {
      SupportersAntitone(peers, a, b);
      assert Supported(peers, highBound, high, a);
      StringLessTotal(a, b);
    }
  }

  // ----- The order statistic -----

  /** `k` is the (threshold + 1)-th largest recorded epoch. */
  ghost predicate IsOrderStatistic(peers: PeerEpochs, threshold: int, k: nat) {
    && k in peers.Values
    && |Supporters(peers, k)| > threshold
    && |Supporters(peers, k + 1)| <= threshold
  }

  lemma SupportedExactly(peers: PeerEpochs, bound: nat, threshold: int, k: nat, v: nat)
    requires IsOrderStatistic(peers, threshold, k)
    ensures Supported(peers, bound, threshold, v) <==> Candidate(peers, bound, v) && v <= k
  {
    if v <= k {
      SupportersAntitone(peers, v, k);
    } else {
      SupportersAntitone(peers, k + 1, v);
    }
  }

  /** The vote yields the order statistic exactly when no candidate below it outranks it as a string. */
  lemma PickIsOrderStatisticExactly(peers: PeerEpochs, bound: nat, threshold: int, k: nat)
    requires 0 <= threshold && bound < k && IsOrderStatistic(peers, threshold, k)
    ensures
      Pick(peers, bound, threshold) == k <==>
      forall v: nat :: Candidate(peers, bound, v) ==> !Outranks(v, k)
    ensures bound < Pick(peers, bound, threshold) <= k
  {
    var r := Pick(peers, bound, threshold);
    SupportedExactly(peers, bound, threshold, k, k);
    assert Supported(peers, bound, threshold, k);
    SupportedExactly(peers, bound, threshold, k, r);
    if r != k {
      StringLessTotal(k, r);
      OutranksExactly(r, k);
      assert Candidate(peers, bound, r) && Outranks(r, k);
    }
    forall v: nat | r == k && Candidate(peers, bound, v) ensures !Outranks(v, k) {
      if v < k {
        SupportedExactly(peers, bound, threshold, k, v);
        OutranksExactly(v, k);
        StringLessTotal(v, k);
      }
    }
  }

  lemma {:induction false} OrderStatisticExists(peers: PeerEpochs, bound: nat, threshold: int) returns (k: nat)
    requires 0 <= threshold && |Supporters(peers, bound + 1)| > threshold
    ensures bound < k && IsOrderStatistic(peers, threshold, k)
    decreases |Supporters(peers, bound + 1)|
  {
    var least := LeastAbove(peers, bound);
    if |Supporters(peers, least + 1)| > threshold {
      ProperSubsetSize(Supporters(peers, least + 1), Supporters(peers, least));
      k := OrderStatisticExists(peers, least, threshold);
    } else {
      k := least;
    }
  }

  /** No candidate is visited before a larger order statistic. */
  ghost predicate VisitedInOrder(peers: PeerEpochs, bound: nat, threshold: int) {
    forall k: nat, v: nat ::
      IsOrderStatistic(peers, threshold, k) && Candidate(peers, bound, v) ==> !Outranks(v, k)
  }

  /** The vote, or the bound when it fails, leaves at most `threshold` peers above it exactly when the
      candidates are visited in order. */
  lemma PickExhaustsExactly(peers: PeerEpochs, bound: nat, threshold: int)
    requires 0 <= threshold
    ensures
      var reached := if Pick(peers, bound, threshold) == NO_EPOCH then bound else Pick(peers, bound, threshold);
      |Supporters(peers, reached + 1)| <= threshold <==> VisitedInOrder(peers, bound, threshold)
  {
    PickSucceedsExactly(peers, bound, threshold);
    if |Supporters(peers, bound + 1)| <= threshold {
      forall k: nat, v: nat | IsOrderStatistic(peers, threshold, k) && Candidate(peers, bound, v)
        ensures !Outranks(v, k)
      {
        if bound < k {
          SupportersAntitone(peers, bound + 1, k);
        }
      }
    } else {
      var k := OrderStatisticExists(peers, bound, threshold);
      PickIsOrderStatisticExactly(peers, bound, threshold, k);
      var picked := Pick(peers, bound, threshold);
      if picked < k {
        SupportersAntitone(peers, picked + 1, k);
      }
      forall j: nat | IsOrderStatistic(peers, threshold, j) ensures j == k {
        if j < k {
          SupportersAntitone(peers, j + 1, k);
        } else if k < j {
          SupportersAntitone(peers, k + 1, j);
        }
      }
    }
  }

  /** Candidates written with equally many digits are visited in numeric order. */
  lemma PickIsOrderStatisticSameLength(peers: PeerEpochs, bound: nat, threshold: int, k: nat)
    requires 0 <= threshold && bound < k && IsOrderStatistic(peers, threshold, k)
    requires forall v: nat :: Candidate(peers, bound, v) ==> Length(v) == Length(k)
    ensures Pick(peers, bound, threshold) == k
  {
    forall v: nat | Candidate(peers, bound, v) ensures !Outranks(v, k) {
      if v < k {
        SameLengthOrder(v, k);
        OutranksExactly(v, k);
        StringLessTotal(v, k);
      }
    }
    PickIsOrderStatisticExactly(peers, bound, threshold, k);
  }

  /** Two peers at 10 and one at 9 with threshold 1: the second largest is 10, the vote yields 9. */
  lemma StringSortWitness()
    ensures
      var peers := map[PeerId(0) := 9, PeerId(1) := 10, PeerId(2) := 10];
      IsOrderStatistic(peers, 1, 10) && Pick(peers, 8, 1) == 9
  {
    var peers := map[PeerId(0) := 9, PeerId(1) := 10, PeerId(2) := 10];
    assert Supporters(peers, 10) == {PeerId(1), PeerId(2)};
    assert Supporters(peers, 11) == {};
    assert Supporters(peers, 9) == {PeerId(0), PeerId(1), PeerId(2)};
    assert peers[PeerId(0)] == 9 && peers[PeerId(1)] == 10;
    assert Supported(peers, 8, 1, 9);
    assert Digits(1) == [1] && Digits(10) == [1, 0] && Digits(9) == [9];
    assert StringLess(10, 9);
    assert IsPick(peers, 8, 1, 9);
    PickUnique(peers, 8, 1, 9, Pick(peers, 8, 1));
  }

  // ----- The vote as the source computes it -----

  function CountAtLeast(values: seq<nat>, epoch: nat): nat {
    if values == [] then 0
    else (if values[0] >= epoch then 1 else 0) + CountAtLeast(values[1..], epoch)
  }

  /** Duplicate-free, above the bound, descending as strings. */
  predicate DescendingStrings(s: seq<nat>) {
    forall i, j :: 0 <= i < j < |s| ==> StringLess(s[j], s[i])
  }

  function InsertDescending(v: nat, s: seq<nat>): (r: seq<nat>)
    requires DescendingStrings(s)
    ensures DescendingStrings(r)
    ensures forall w :: w in r <==> w == v || w in s
  {
    if s == [] then [v]
    else if v == s[0] then s
    else if StringLess(s[0], v) then
      assert forall j :: 0 < j < |s| ==> StringLess(s[j], v) by {
        forall j | 0 < j < |s| ensures StringLess(s[j], v) { StringLessTransitive(s[j], s[0], v); }
      }
      [v] + s
    else
      StringLessTotal(v, s[0]);
      var rest := InsertDescending(v, s[1..]);
      assert forall w :: w in rest ==> StringLess(w, s[0]);
      [s[0]] + rest
  }

  /** Deduplicate, keep what exceeds the bound, sort without comparator, reverse. */
  function VisitingOrder(values: seq<nat>, bound: nat): (r: seq<nat>)
    ensures DescendingStrings(r)
    ensures forall v :: v in r <==> v in values && v > bound
  {
    if values == [] then []
    else
      var rest := VisitingOrder(values[1..], bound);
      if values[0] > bound then InsertDescending(values[0], rest) else rest
  }

  ghost function SupportersAmong(peers: PeerEpochs, order: seq<PeerId>, epoch: int): set<PeerId> {
    set p | p in order && p in peers && peers[p] >= epoch
  }

  lemma SupportersAmongTail(peers: PeerEpochs, order: seq<PeerId>, epoch: int)
    requires order != [] && order[0] in peers && order[0] !in order[1..]
    ensures
      |SupportersAmong(peers, order, epoch)| ==
      (if peers[order[0]] >= epoch then 1 else 0) + |SupportersAmong(peers, order[1..], epoch)|
  {
    var rest := SupportersAmong(peers, order[1..], epoch);
    assert order == [order[0]] + order[1..];
    assert SupportersAmong(peers, order, epoch) == if peers[order[0]] >= epoch then rest + {order[0]} else rest;
  }

  lemma {:induction false} CountIsSupport(peers: PeerEpochs, order: seq<PeerId>, values: seq<nat>, epoch: nat)
    requires forall i, j :: 0 <= i < j < |order| ==> order[i] != order[j]
    requires |values| == |order|
    requires forall i :: 0 <= i < |order| ==> order[i] in peers && values[i] == peers[order[i]]
    ensures CountAtLeast(values, epoch) == |SupportersAmong(peers, order, epoch)|
  {
    if order == [] {
      assert SupportersAmong(peers, order, epoch) == {};
    } else {
      CountIsSupport(peers, order[1..], values[1..], epoch);
      SupportersAmongTail(peers, order, epoch);
    }
  }

  /** `Array.from(peers.values())`, in whatever order the entries were inserted. */
  method ValuesOf(peers: PeerEpochs) returns (values: seq<nat>)
    ensures forall v :: v in values <==> v in peers.Values
    ensures forall e: nat :: CountAtLeast(values, e) == |Supporters(peers, e)|
  {
    values := [];
    var left := peers.Keys;
    ghost var order: seq<PeerId> := [];
    while left != {}
      invariant forall i, j :: 0 <= i < j < |order| ==> order[i] != order[j]
      invariant |values| == |order|
      invariant forall i :: 0 <= i < |order| ==> order[i] in peers && values[i] == peers[order[i]]
      invariant left <= peers.Keys
      invariant forall p :: p in peers ==> (p in order <==> p !in left)
      decreases |left|
    {
      var p :| p in left;
      values := values + [peers[p]];
      order := order + [p];
      left := left - {p};
    }
    forall v | v in peers.Values ensures v in values {
      var p :| p in peers && peers[p] == v;
      var i :| 0 <= i < |order| && order[i] == p;
      assert values[i] == v;
    }
    forall e: nat ensures CountAtLeast(values, e) == |Supporters(peers, e)| {
      CountIsSupport(peers, order, values, e);
      assert SupportersAmong(peers, order, e) == Supporters(peers, e);
    }
  }

  /** The loop of `_checkAmplificationRule` and `_checkAgreementRule`. */
  method FirstSupported(peers: PeerEpochs, bound: nat, threshold: int) returns (epoch: int)
    ensures epoch == Pick(peers, bound, threshold)
  {
    var peersEpochs := ValuesOf(peers);
    var candidates := VisitingOrder(peersEpochs, bound);
    epoch := NO_EPOCH;
    for i := 0 to |candidates|
      invariant epoch == NO_EPOCH
      invariant forall k :: 0 <= k < i ==> !Supported(peers, bound, threshold, candidates[k])
    {
      if CountAtLeast(peersEpochs, candidates[i]) > threshold {
        epoch := candidates[i];
        assert candidates[i] in candidates;
        forall v: nat | Supported(peers, bound, threshold, v)
          ensures v == epoch || StringLess(v, epoch)
        {
          assert v in candidates;
          var k :| 0 <= k < |candidates| && candidates[k] == v;
        }
        break;
      }
    }
    assert IsPick(peers, bound, threshold, epoch);
    PickUnique(peers, bound, threshold, epoch, Pick(peers, bound, threshold));
  }
}
