/** The timer, and the transmit service whose handlers take the steps of `TransmitSystem`. */
module TransmitService {
  import opened Options
  import opened Ledger
  import opened Reports
  import opened Contract
  import opened Shuffle
  import opened Median
  import opened Transmit
  import opened TransmitSystem

  /** At most one pending deadline. */
  class Timer {
    const timeMs: int
    var due: Option<int>

    constructor (timeMs: int)
      ensures this.timeMs == timeMs && due == None
    {
      this.timeMs := timeMs;
      due := None;
    }

    /** `delayMs` may be left undefined, for the duration the timer was made with. */
    method Restart(now: int, delayMs: Option<int>)
      modifies this`due
      ensures due == Some(now + if delayMs.Some? then delayMs.value else timeMs)
    {
      Stop();
      due := Some(now + if delayMs.Some? then delayMs.value else timeMs);
    }

    method Stop()
      modifies this`due
      ensures due == None
    {
      due := None;
    }
  }

  class TransmitService {
    const mavrykAddress: Address
    const timerTransmit: Timer
    var lastTransmittedReport: Cache
    var reports: seq<Queued>

    /** The service is in the part of the system state `s` that it holds. */
    ghost predicate Shows(s: State)
      reads this, timerTransmit
    {
      s.cache == lastTransmittedReport && s.queue == reports && s.timer == timerTransmit.due
    }

    constructor (mavrykAddress: Address)
      ensures forall s :: Init(s) ==> Shows(s)
      ensures fresh(timerTransmit) && this.mavrykAddress == mavrykAddress
    {
      this.mavrykAddress := mavrykAddress;
      timerTransmit := new Timer(0);
      lastTransmittedReport := map[];
      reports := [];
    }

    /** `onTransmit` from the return of its chain call up to the first await of `doTransmit`. */
    method OnTransmit(ghost s: State, item: Item, alpha: real, chain: Option<ChainPoint>) returns (accepted: bool)
      requires Shows(s)
      modifies this`lastTransmittedReport
      ensures accepted == Accepts(s.cache, item, alpha, chain)
      ensures Shows(if accepted then Decided(s, item) else s)
    {
      var report := item.report;
      if chain.Some? && IsNewerOrEqualEpochRound(report.epoch, report.round, chain.value.epoch, chain.value.round) {
        return false;
      }
      if item.aggregator in lastTransmittedReport {
        var last := lastTransmittedReport[item.aggregator];
        if IsNewerOrEqualEpochRound(report.epoch, report.round, last.epoch, last.round) {
          return false;
        }
        var median := ComputeMedian(report.observations);
        var previous := ComputeMedian(last.observations);
        if median == None || previous == None {
          return false;
        }
        if !DeviatesAtLeast(previous.value, median.value, alpha) {
          if chain == None {
            return false;
          }
          if !IsNewerOrEqualEpochRound(last.epoch, last.round, chain.value.epoch, chain.value.round) {
            return false;
          }
        }
      }
      lastTransmittedReport := lastTransmittedReport[item.aggregator := report];
      return true;
    }

    /** The rest of `doTransmit`, for the report that waits at position `i`. */
    method QueueReport(ghost s: State, ghost i: nat, item: Item, rnd: Generator, now: int)
      requires Shows(s) && s.now == now && i < |s.awaiting| && s.awaiting[i] == item
      requires DrawsFor(rnd, Seed(item.aggregator, item.report.epoch, item.report.round), |item.ledger|)
      modifies this`reports, timerTransmit
      ensures
        var delay := TransmitDelay(item.ledger, mavrykAddress, rnd, Seed(item.aggregator, item.report.epoch, item.report.round));
        reports == old(reports) + [Queued(now + delay, item)]
      ensures timerTransmit.due == Some(EarliestTime(reports))
      ensures Shows(Rearmed(Pushed(s, i, TransmitDelay(item.ledger, mavrykAddress, rnd, Seed(item.aggregator, item.report.epoch, item.report.round)))))
    {
      var delay := GetTransmitDelayMs(item.ledger, mavrykAddress, rnd, item.aggregator, item.report.epoch, item.report.round);
      reports := reports + [Queued(now + delay, item)];
      timerTransmit.Restart(now, Some(EarliestTime(reports) - now));
    }

    /** The timer fires: the earliest report is popped before the chain is asked. */
    method OnTransmitTimerTimeout(ghost s: State) returns (popped: Option<Queued>, ghost k: nat)
      requires Shows(s) && s.timer.Some? && s.timer.value <= s.now
      modifies this`reports, timerTransmit
      ensures if s.queue == [] then popped == None && Shows(s.(timer := None))
              else IsEarliest(s.queue, k) && popped == Some(s.queue[k]) &&
                   exists t :: Next(s, t, Fire(k)) && Shows(t)
    {
      timerTransmit.due := None;
      k := 0;
      if reports == [] {
        return None, k;
      }
      var earliest := 0;
      for i := 1 to |reports|
        invariant earliest < i && earliest < |reports|
        invariant forall j :: 0 <= j < i ==> reports[earliest].time <= reports[j].time
      {
        if reports[i].time < reports[earliest].time {
          earliest := i;
        }
      }
      k := earliest;
      popped := Some(reports[earliest]);
      reports := RemoveAt(reports, earliest);
      ghost var t := s.(timer := None, queue := reports, inFlight := s.inFlight + [popped.value],
                        popped := s.popped + [Popped(popped.value, s.now)]);
      assert Next(s, t, Fire(k)) && Shows(t);
    }

    /** What a popped report sends, given the chain: nothing once the chain has reached it. */
    method Send(entry: Queued, chain: Option<ChainPoint>) returns (call: Option<(Payload, map<Address, SigValue>)>)
      ensures call.Some? <==> Ahead(chain, entry.item.report)
      ensures call.Some? ==>
        var r := entry.item.report;
        call.value == (Submitted(entry.item.ledger, r.observations, r.epoch, r.round, entry.item.aggregator),
                       SignatureMap(r.signatures))
    {
      var report := entry.item.report;
      if chain == None || !IsNewerOrEqualEpochRound(report.epoch, report.round, chain.value.epoch, chain.value.round) {
        var observations, signatures := SendReportBlockchain(entry.item.aggregator, entry.item.ledger, report);
        return Some((observations, signatures));
      }
      return None;
    }

    /** The end of the timer handler: re-arm for the next report, if any. */
    method RestartForNext(ghost s: State, now: int)
      requires Shows(s)
      modifies timerTransmit
      ensures Shows(Rearmed(s))
    {
      if reports == [] {
        return;
      }
      timerTransmit.Restart(now, Some(EarliestTime(reports) - now));
    }
  }
}
