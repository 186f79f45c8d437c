/** The leader object, whose handlers compute the reactions of module `Leader`. */
module LeaderService {
  import opened Options
  import opened Ledger
  import opened Reports
  import opened Contract
  import opened Follower
  import opened Leader

  class ReportGenLeaderService {
    const config: Config
    var round: int
    var observe: seq<SignedObservation>
    var report: seq<ReportEntry>
    var phase: Option<Phase>

    function State(): LeaderState
      reads this
    {
      LeaderState(round, observe, report, phase)
    }

    constructor (config: Config)
      requires ValidLedger(config.ledger)
      ensures this.config == config && State() == LEADER_INITIAL && PhaseInv(config, State())
    {
      this.config := config;
      round, observe, report, phase := 0, [], [], None;
    }

    method OnObserve(from: PeerId, aggregator: Address, epoch: int, observedRound: int, data: real,
                     signature: PeerSig, keyKnown: bool)
      returns (out: seq<LeaderOut>)
      requires ValidLedger(config.ledger) && PhaseInv(config, State())
      modifies this
      ensures PhaseInv(config, State())
      ensures LeaderResult(State(), out) ==
              LeaderReact(config, old(State()), ObserveMsg(from, aggregator, epoch, observedRound, data, signature, keyKnown))
    {
      LeaderReactKeepsInv(config, State(), ObserveMsg(from, aggregator, epoch, observedRound, data, signature, keyKnown));
      out := [];
      if aggregator != config.aggregator {
        return;
      }
      if from !in PeerIds(config.ledger) {
        return;
      }
      if epoch != config.epoch {
        return;
      }
      if observedRound != round {
        return;
      }
      if from in Oracles(observe) {
        return;
      }
      if phase != Some(Observe) && phase != Some(Grace) {
        return;
      }
      if !keyKnown || !VerifyPeerSig(from, data, signature) {
        return;
      }
      observe := observe + [SignedObservation(from, data, signature)];
      if |observe| == 2 * FaultBound(config.ledger) + 1 {
        out := [RestartGraceTimer];
        phase := Some(Grace);
      }
    }

    method OnReport(from: PeerId, aggregator: Address, compressed: CompressedReport, signature: Signature)
      returns (out: seq<LeaderOut>)
      requires ValidLedger(config.ledger) && PhaseInv(config, State())
      modifies this
      ensures PhaseInv(config, State())
      ensures LeaderResult(State(), out) ==
              LeaderReact(config, old(State()), ReportMsg(from, aggregator, compressed, signature))
    {
      LeaderReactKeepsInv(config, State(), ReportMsg(from, aggregator, compressed, signature));
      out := [];
      if aggregator != config.aggregator {
        return;
      }
      if from !in PeerIds(config.ledger) {
        return;
      }
      if compressed.epoch != config.epoch {
        return;
      }
      if compressed.round != round {
        return;
      }
      if from in Senders(report) {
        return;
      }
      if phase != Some(ReportPhase) {
        return;
      }
      var ok := VerifyReportSignature(config.aggregator, config.ledger, compressed, signature);
      if !ok {
        return;
      }
      report := report + [ReportEntry(from, compressed, signature)];
      if |report| <= FaultBound(config.ledger) {
        return;
      }
      out := [BroadcastFinal(AttestedReport(config.epoch, round, compressed.observations, SignaturesOf(report)))];
      phase := Some(FinalPhase);
    }

    method OnStartEpoch(aggregator: Address, epoch: int, leader: PeerId) returns (out: seq<LeaderOut>)
      requires ValidLedger(config.ledger) && PhaseInv(config, State())
      modifies this
      ensures PhaseInv(config, State())
      ensures LeaderResult(State(), out) == LeaderReact(config, old(State()), StartEpochEvent(aggregator, epoch, leader))
    {
      LeaderReactKeepsInv(config, State(), StartEpochEvent(aggregator, epoch, leader));
      out := [];
      if aggregator != config.aggregator {
        return;
      }
      if config.epoch != epoch || config.leader != leader {
        return;
      }
      out := StartNextRound();
    }

    method StartNextRound() returns (out: seq<LeaderOut>)
      modifies this
      ensures LeaderResult(State(), out) == StartRound(old(State()))
    {
      round := round + 1;
      observe := [];
      report := [];
      phase := Some(Observe);
      out := [BroadcastObserveReq(round), RestartRoundTimer];
    }

    method OnTimerRoundTimeout() returns (out: seq<LeaderOut>)
      requires ValidLedger(config.ledger) && PhaseInv(config, State())
      modifies this
      ensures PhaseInv(config, State())
      ensures LeaderResult(State(), out) == LeaderReact(config, old(State()), RoundTimeout)
    {
      LeaderReactKeepsInv(config, State(), RoundTimeout);
      out := StartNextRound();
    }

    method OnGraceTimerTimeout() returns (out: seq<LeaderOut>)
      requires ValidLedger(config.ledger) && PhaseInv(config, State())
      modifies this
      ensures PhaseInv(config, State())
      ensures LeaderResult(State(), out) == LeaderReact(config, old(State()), GraceTimeout)
    {
      LeaderReactKeepsInv(config, State(), GraceTimeout);
      out := [];
      if phase != Some(Grace) {
        return;
      }
      out := [BroadcastReportReq(AssembleReport(config, State()))];
      phase := Some(ReportPhase);
    }
  }
}
