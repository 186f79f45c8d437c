/** All report generation instances of one aggregator over an asynchronous network. Every instance ever
    started stays able to take steps, which covers handlers still queued when it is stopped. Faulty
    oracles and outsiders send anything under their own identity; the observations sent to leaders are
    unconstrained. */
module ReportSystem {
  import opened Options
  import opened Ledger
  import opened Networks
  import opened Reports
  import opened Follower
  import opened Leader

  /** An oracle runs at most one instance per epoch. */
  datatype InstanceId = InstanceId(oracle: PeerId, epoch: nat)

  /** A follower with the history of its current round: whether it transmitted, whether it declined to
      report, whose echoes for this epoch and round it has handled, and whose echoes were already
      recorded when it entered the round. */
  datatype FollowerNode = FollowerNode(
    config: Config, state: FollowerState, transmitted: bool, declined: bool, heard: set<PeerId>, carried: set<PeerId>)

  datatype LeaderNode = LeaderNode(config: Config, state: LeaderState)

  /** The messages correct oracles have sent. */
  datatype Message =
    | ObserveReqSent(from: PeerId, round: int)
    | ReportReqSent(from: PeerId, report: Report)
    | ReportSent(from: PeerId, to: PeerId, compressed: CompressedReport, signature: Signature)
    | FinalSent(from: PeerId, attested: AttestedReport)
    | FinalEchoSent(from: PeerId, attested: AttestedReport)

  datatype System = System(
    followers: map<InstanceId, FollowerNode>, leaders: map<InstanceId, LeaderNode>, sent: set<Message>)

  const NO_INSTANCES := System(map[], map[], {})

  datatype Step =
    | StartInstance(id: InstanceId, heartbeatSeconds: int, alphaPerThousand: real)
    | FollowerStep(id: InstanceId, followerInput: FollowerInput)
    | LeaderStep(id: InstanceId, leaderInput: LeaderInput)

  // ----- Messages -----

  ghost function FollowerMessages(p: PeerId, out: seq<FollowerOut>): set<Message> {
    (set o | o in out && o.SendReport? :: ReportSent(p, o.to, o.compressed, o.signature)) +
    (set o | o in out && o.BroadcastFinalEcho? :: FinalEchoSent(p, o.attested))
  }

  ghost function LeaderMessages(p: PeerId, out: seq<LeaderOut>): set<Message> {
    (set o | o in out && o.BroadcastObserveReq? :: ObserveReqSent(p, o.round)) +
    (set o | o in out && o.BroadcastReportReq? :: ReportReqSent(p, o.report)) +
    (set o | o in out && o.BroadcastFinal? :: FinalSent(p, o.attested))
  }

  ghost predicate FollowerAuthentic(net: Network, sent: set<Message>, input: FollowerInput) {
    input.from in net.Correct() && input.aggregator == net.aggregator ==>
      match input
      case ObserveReq(from, _, round, _) => ObserveReqSent(from, round) in sent
      case ReportReq(from, _, report, _, _, _) => ReportReqSent(from, report) in sent
      case Final(from, _, attested) => FinalSent(from, attested) in sent
      case FinalEcho(from, _, attested) => FinalEchoSent(from, attested) in sent
  }

  ghost predicate LeaderAuthentic(net: Network, sent: set<Message>, to: PeerId, input: LeaderInput) {
    input.ReportMsg? && input.from in net.Correct() && input.aggregator == net.aggregator ==>
      ReportSent(input.from, to, input.compressed, input.reportSignature) in sent
  }

  // ----- Steps -----

  ghost function InfoOf(net: Network, p: PeerId): OracleInfo
    requires p in PeerIds(net.ledger)
  {
    FindByPeer(net.ledger, p).value
  }

  ghost function ConfigFor(net: Network, id: InstanceId, heartbeatSeconds: int, alphaPerThousand: real): Config
    requires net.Valid() && id.oracle in PeerIds(net.ledger)
  {
    Config(net.ledger, InfoOf(net, id.oracle), id.epoch, LeaderForEpoch(net.ledger, id.epoch), net.aggregator,
           heartbeatSeconds, alphaPerThousand)
  }

  ghost predicate ConfigOk(net: Network, id: InstanceId, c: Config)
    requires net.Valid()
  {
    id.oracle in net.Correct() && c == ConfigFor(net, id, c.heartbeatSeconds, c.alphaPerThousand)
  }

  /** The follower's history after handling a message with the given result. */
  ghost function Advance(n: FollowerNode, input: FollowerInput, r: FollowerResult): FollowerNode {
    var same := r.state.round == n.state.round;
    FollowerNode(
      n.config, r.state,
      (same && n.transmitted) || (exists a :: Transmit(a) in r.out),
      same && (n.declined || (input.ReportReq? && Progress in r.out)),
      if !same then {}
      else if input.FinalEcho? && input.aggregator == n.config.aggregator
              && input.attested.epoch == n.config.epoch && input.attested.round == n.state.round
      then n.heard + {input.from} else n.heard,
      if same then n.carried else r.state.receivedEcho)
  }

  ghost function Started(net: Network, s: System, id: InstanceId, heartbeat: int, alpha: real): System
    requires net.Valid() && id.oracle in PeerIds(net.ledger)
  {
    var c := ConfigFor(net, id, heartbeat, alpha);
    System(s.followers[id := FollowerNode(c, Follower.INITIAL, false, false, {}, {})],
           if c.leader == id.oracle then s.leaders[id := LeaderNode(c, LEADER_INITIAL)] else s.leaders,
           s.sent)
  }

  ghost function FollowerApplied(s: System, id: InstanceId, input: FollowerInput, r: FollowerResult): System
    requires id in s.followers
  {
    System(s.followers[id := Advance(s.followers[id], input, r)], s.leaders,
           s.sent + FollowerMessages(id.oracle, r.out))
  }

  ghost function LeaderApplied(s: System, id: InstanceId, r: LeaderResult): System
    requires id in s.leaders
  {
    System(s.followers, s.leaders[id := s.leaders[id].(state := r.state)], s.sent + LeaderMessages(id.oracle, r.out))
  }

  ghost predicate Next(net: Network, s: System, t: System, step: Step)
    requires net.Valid()
  {
    match step
    case StartInstance(id, heartbeat, alpha) =>
      id.oracle in net.Correct() && id !in s.followers && t == Started(net, s, id, heartbeat, alpha)
    case FollowerStep(id, input) =>
      id in s.followers && ValidLedger(s.followers[id].config.ledger) && FollowerAuthentic(net, s.sent, input) &&
      t == FollowerApplied(s, id, input, Follower.React(s.followers[id].config, s.followers[id].state, input))
    case LeaderStep(id, input) =>
      id in s.leaders && LeaderAuthentic(net, s.sent, id.oracle, input) &&
      t == LeaderApplied(s, id, LeaderReact(s.leaders[id].config, s.leaders[id].state, input))
  }

  ghost predicate IsRun(net: Network, states: seq<System>, steps: seq<Step>)
    requires net.Valid()
  {
    && |states| == |steps| + 1
    && states[0] == NO_INSTANCES
    && forall i :: 0 <= i < |steps| ==> Next(net, states[i], states[i + 1], steps[i])
  }
}
