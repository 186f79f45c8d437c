/** The follower object, whose handlers compute the reactions of module `Follower`. */
module FollowerService {
  import opened Options
  import opened Ledger
  import opened Reports
  import opened Contract
  import opened Follower

  class ReportGenFollowerService {
    const config: Config
    var round: int
    var sentEcho: Option<AttestedReport>
    var sentReport: bool
    var completedRound: bool
    var receivedEcho: set<PeerId>

    ghost function State(): FollowerState
      reads this
    {
      FollowerState(round, sentEcho, sentReport, completedRound, receivedEcho)
    }

    constructor (config: Config)
      requires ValidLedger(config.ledger)
      ensures this.config == config && State() == INITIAL
    {
      this.config := config;
      round, sentEcho, sentReport, completedRound, receivedEcho := 0, None, false, false, {};
    }

    method OnObserveReqReceived(from: PeerId, aggregator: Address, requested: int, data: Option<real>)
      returns (out: seq<FollowerOut>)
      requires ValidLedger(config.ledger)
      modifies this
      ensures FollowerResult(State(), out) == React(config, old(State()), ObserveReq(from, aggregator, requested, data))
    {
      out := [];
      if aggregator != config.aggregator {
        return;
      }
      if from != config.leader {
        return;
      }
      if round >= requested || requested > ROUND_MAX + 1 {
        return;
      }
      round := requested;
      if round > ROUND_MAX {
        out := [ChangeLeader];
        return;
      }
      sentEcho := None;
      sentReport := false;
      completedRound := false;
      receivedEcho := {};
      if data == None {
        return;
      }
      var signature := PeerSig(config.me.peerId, data.value);
      out := [SendObserve(from, config.epoch, requested, data.value, signature)];
    }

    method OnReportReqReceived(from: PeerId, aggregator: Address, report: Report, keys: set<PeerId>,
                               last: Option<ChainReport>, now: int)
      returns (out: seq<FollowerOut>)
      requires ValidLedger(config.ledger)
      modifies this
      ensures FollowerResult(State(), out) ==
              React(config, old(State()), ReportReq(from, aggregator, report, keys, last, now))
    {
      out := [];
      if aggregator != config.aggregator {
        return;
      }
      if from != config.leader {
        return;
      }
      if !SortedByOracle(report.observations) {
        return;
      }
      if |Oracles(report.observations)| < FaultBound(config.ledger) * 2 + 1 {
        return;
      }
      if !(forall ob :: ob in report.observations ==>
             ob.oracle in keys && VerifyPeerSig(ob.oracle, ob.data, ob.signature)) {
        return;
      }
      ReportOkNonempty(config.ledger, report, keys);
      if ShouldReport(config, report, last, now) {
        var compressed := Compress(report);
        var value := SignCompressedReport(config.me.publicKey, config.aggregator, config.ledger,
                                          compressed.observations, compressed.epoch, compressed.round);
        sentReport := true;
        out := [SendReport(from, compressed, Signature(config.me.address, value))];
      } else {
        out := CompleteRound();
      }
    }

    method OnFinalReceived(from: PeerId, aggregator: Address, attested: AttestedReport) returns (out: seq<FollowerOut>)
      requires ValidLedger(config.ledger)
      modifies this
      ensures FollowerResult(State(), out) == React(config, old(State()), Final(from, aggregator, attested))
    {
      out := [];
      if aggregator != config.aggregator {
        return;
      }
      if from != config.leader {
        return;
      }
      if attested.epoch != config.epoch {
        return;
      }
      if attested.round != round {
        return;
      }
      if sentEcho.Some? {
        return;
      }
      var verdict := VerifyAttestedReport(config.aggregator, attested, config.ledger, FaultBound(config.ledger));
      if verdict != Some(true) {
        return;
      }
      sentEcho := Some(attested);
      out := [BroadcastFinalEcho(attested)];
    }

    method OnFinalEchoReceived(from: PeerId, aggregator: Address,
                               attested: AttestedReport) returns (out: seq<FollowerOut>)
      requires ValidLedger(config.ledger)
      modifies this
      ensures FollowerResult(State(), out) == React(config, old(State()), FinalEcho(from, aggregator, attested))
    {
      out := [];
      if aggregator != config.aggregator {
        return;
      }
      if from !in PeerIds(config.ledger) {
        return;
      }
      if attested.epoch != config.epoch {
        return;
      }
      if attested.round != round {
        return;
      }
      if from in receivedEcho {
        return;
      }
      if completedRound {
        return;
      }
      var verdict := VerifyAttestedReport(config.aggregator, attested, config.ledger, FaultBound(config.ledger));
      if verdict != Some(true) {
        return;
      }
      receivedEcho := receivedEcho + {from};
      if sentEcho == None {
        sentEcho := Some(attested);
        out := [BroadcastFinalEcho(attested)];
      }
      if |receivedEcho| > FaultBound(config.ledger) {
        out := out + [Transmit(attested)];
        var progress := CompleteRound();
        out := out + progress;
      }
    }

    method CompleteRound() returns (out: seq<FollowerOut>)
      modifies this`completedRound
      ensures completedRound && out == [Progress]
    {
      completedRound := true;
      out := [Progress];
    }
  }
}
