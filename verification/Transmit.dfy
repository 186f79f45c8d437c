/** Deciding which attested reports are queued for transmission, and the queue with its one timer. */
module Transmit {
  import opened Options
  import opened Ledger
  import opened Reports
  import opened Median
  import opened Follower

  /** A report handed over for transmission. */
  datatype Item = Item(aggregator: Address, ledger: seq<OracleInfo>, report: AttestedReport)

  /** An entry of the queue with the time its transmission is due. */
  datatype Queued = Queued(time: int, item: Item)

  /** Epoch and round of the last report on chain. */
  datatype ChainPoint = ChainPoint(epoch: int, round: int)

  /** The last accepted report of each aggregator. */
  type Cache = map<Address, AttestedReport>

  // ----- Freshness -----

  function IsNewerOrEqualEpochRound(baseEpoch: int, baseRound: int, otherEpoch: int, otherRound: int): bool {
    if otherEpoch > baseEpoch then true
    else if otherEpoch == baseEpoch then otherRound >= baseRound
    else false
  }

  /** `b` is strictly later than `a`, by epoch and then by round. */
  predicate Later(a: AttestedReport, b: AttestedReport) {
    a.epoch < b.epoch || (a.epoch == b.epoch && a.round < b.round)
  }

  /** The comparison is the lexicographic order of (epoch, round), base before other, and total. */
  lemma FreshnessIsTotalOrder(e1: int, r1: int, e2: int, r2: int, e3: int, r3: int)
    ensures IsNewerOrEqualEpochRound(e1, r1, e2, r2) <==> e1 < e2 || (e1 == e2 && r1 <= r2)
    ensures IsNewerOrEqualEpochRound(e1, r1, e1, r1)
    ensures IsNewerOrEqualEpochRound(e1, r1, e2, r2) || IsNewerOrEqualEpochRound(e2, r2, e1, r1)
    ensures IsNewerOrEqualEpochRound(e1, r1, e2, r2) && IsNewerOrEqualEpochRound(e2, r2, e1, r1) ==> e1 == e2 && r1 == r2
    ensures IsNewerOrEqualEpochRound(e1, r1, e2, r2) && IsNewerOrEqualEpochRound(e2, r2, e3, r3) ==>
            IsNewerOrEqualEpochRound(e1, r1, e3, r3)
  {
  }

  /** Relative change of at least `alpha` per thousand; from zero it is infinite, zero over zero is no number. */
  predicate DeviatesAtLeast(previous: real, current: real, alpha: real) {
    if previous == 0.0 then current != 0.0
    else 1000.0 * Abs(current - previous) >= alpha * Abs(previous)
  }

  /** The band it leaves: alpha per thousand around the previous value, whatever its sign. */
  lemma DeviationBand(previous: real, current: real, alpha: real)
    ensures previous > 0.0 ==>
      (DeviatesAtLeast(previous, current, alpha) <==>
       current >= previous * (1.0 + alpha / 1000.0) || current <= previous * (1.0 - alpha / 1000.0))
    ensures previous < 0.0 ==>
      (DeviatesAtLeast(previous, current, alpha) <==>
       current <= previous * (1.0 + alpha / 1000.0) || current >= previous * (1.0 - alpha / 1000.0))
    ensures previous == 0.0 ==> (DeviatesAtLeast(previous, current, alpha) <==> current != 0.0)
  {
    var share := alpha / 1000.0;
    assert alpha == 1000.0 * share;
    assert alpha * Abs(previous) == 1000.0 * (share * Abs(previous));
    assert previous * (1.0 + share) == previous + previous * share;
    assert previous * (1.0 - share) == previous - previous * share;
    assert share * Abs(previous) == if previous < 0.0 then -(previous * share) else previous * share;
  }

  function ReachedBy(chain: Option<ChainPoint>, report: AttestedReport): bool {
    chain.Some? && IsNewerOrEqualEpochRound(report.epoch, report.round, chain.value.epoch, chain.value.round)
  }

  /** `onTransmit` after its chain call returned `chain`; a median that throws accepts nothing. */
  predicate Accepts(cache: Cache, item: Item, alpha: real, chain: Option<ChainPoint>) {
    && !ReachedBy(chain, item.report)
    && (item.aggregator !in cache ||
        (var last := cache[item.aggregator];
         && !IsNewerOrEqualEpochRound(item.report.epoch, item.report.round, last.epoch, last.round)
         && (var median, previous := ComputeMedian(item.report.observations), ComputeMedian(last.observations);
             median.Some? && previous.Some? &&
             (DeviatesAtLeast(previous.value, median.value, alpha) || ReachedBy(chain, last)))))
  }

  /** The chain has not got as far as the report. */
  predicate Ahead(chain: Option<ChainPoint>, report: AttestedReport) {
    chain.Some? ==>
      chain.value.epoch < report.epoch || (chain.value.epoch == report.epoch && chain.value.round < report.round)
  }

  /** A report is accepted exactly when it is strictly later than the chain snapshot and than the last
      accepted report of its aggregator, if there is one, and then both have observations and either the
      medians deviate or the chain has reached the last one. */
  lemma AcceptedExactly(cache: Cache, item: Item, alpha: real, chain: Option<ChainPoint>)
    ensures Accepts(cache, item, alpha, chain) <==>
            && Ahead(chain, item.report)
            && (item.aggregator in cache ==>
                var last := cache[item.aggregator];
                && Later(last, item.report)
                && last.observations != [] && item.report.observations != []
                && (DeviatesAtLeast(ComputeMedian(last.observations).value, ComputeMedian(item.report.observations).value, alpha)
                    || !Ahead(chain, last)))
  {
  }

  /** An accepted report is strictly later than both. */
  lemma AcceptedIsFresh(cache: Cache, item: Item, alpha: real, chain: Option<ChainPoint>)
    requires Accepts(cache, item, alpha, chain)
    ensures item.aggregator in cache ==> Later(cache[item.aggregator], item.report)
    ensures Ahead(chain, item.report)
  {
  }

  // ----- The queue -----

  predicate IsEarliest(queue: seq<Queued>, k: nat) {
    k < |queue| && forall i :: 0 <= i < |queue| ==> queue[k].time <= queue[i].time
  }

  function RemoveAt<T>(s: seq<T>, k: nat): (r: seq<T>)
    requires k < |s|
    ensures |r| == |s| - 1
  {
    s[..k] + s[k + 1..]
  }

  lemma RemoveAtMultiset<T>(s: seq<T>, k: nat)
    requires k < |s|
    ensures multiset(s) == multiset(RemoveAt(s, k)) + multiset{s[k]}
  {
    assert s == s[..k] + [s[k]] + s[k + 1..];
  }

  /** Time of the entry that `peek` returns. */
  function EarliestTime(queue: seq<Queued>): (time: int)
    requires queue != []
    ensures exists k :: 0 <= k < |queue| && queue[k].time == time
    ensures forall i :: 0 <= i < |queue| ==> time <= queue[i].time
  {
    if |queue| == 1 then queue[0].time
    else
      var rest := EarliestTime(queue[1..]);
      var k :| 0 <= k < |queue[1..]| && queue[1..][k].time == rest;
      assert queue[k + 1].time == rest;
      assert forall i :: 1 <= i < |queue| ==> queue[i] == queue[1..][i - 1];
      if queue[0].time <= rest then queue[0].time else rest
  }
}
