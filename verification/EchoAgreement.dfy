/** Within one epoch and round, either every correct oracle transmits or none does. */
module EchoAgreement {
  import opened Options
  import opened Ledger
  import opened Networks
  import opened Reports
  import opened Contract
  import opened Follower
  import opened Leader
  import opened ReportSystem

  /** `p` has broadcast a verified echo for the epoch and round. */
  ghost predicate HasEchoed(sent: set<Message>, p: PeerId, epoch: int, round: int) {
    exists a :: FinalEchoSent(p, a) in sent && a.epoch == epoch && a.round == round
  }

  /** Every recorded echo of a correct oracle was really sent by it, for this round or, if it was carried
      over, for an earlier one. */
  ghost predicate EchoesReal(net: Network, sent: set<Message>, n: FollowerNode) {
    forall p :: p in n.state.receivedEcho && p in net.Correct() ==> EchoReal(sent, n, p)
  }

  ghost predicate EchoReal(sent: set<Message>, n: FollowerNode, p: PeerId) {
    exists round ::
      HasEchoed(sent, p, n.config.epoch, round) && round <= n.state.round && (round < n.state.round <==> p in n.carried)
  }

  /** Round bookkeeping of one follower. */
  ghost predicate NodeEcho(net: Network, sent: set<Message>, id: InstanceId, n: FollowerNode)
    requires net.Valid()
  {
    && ConfigOk(net, id, n.config)
    && 0 <= n.state.round <= ROUND_MAX + 1
    && RecordsOk(net, n)
    && EchoesReal(net, sent, n)
  }

  ghost predicate RecordsOk(net: Network, n: FollowerNode) {
    && n.state.receivedEcho <= PeerIds(net.ledger)
    && n.carried <= n.state.receivedEcho
    && (n.transmitted ==> n.state.completedRound && |n.state.receivedEcho| > FaultBound(net.ledger))
    && (|n.state.receivedEcho| > FaultBound(net.ledger) ==> n.state.completedRound)
    && (n.state.receivedEcho != {} ==> n.state.sentEcho.Some?)
    && (forall p :: p in n.heard && p in net.Correct() ==> p in n.state.receivedEcho || n.state.completedRound)
    && (n.state.round <= ROUND_MAX ==> n.carried == {} && (n.state.completedRound ==> n.transmitted || n.declined))
  }

  /** A sent echo is verified, and its sender remembers it for as long as it stays in that round. */
  ghost predicate SentEchoOk(net: Network, followers: map<InstanceId, FollowerNode>, p: PeerId, a: AttestedReport) {
    && AttestedOk(net.aggregator, net.ledger, a) && 0 <= a.epoch
    && var id := InstanceId(p, a.epoch);
    && id in followers && a.round <= followers[id].state.round
    && (a.round == followers[id].state.round ==> followers[id].state.sentEcho.Some?)
  }

  ghost predicate EchoInv(net: Network, s: System)
    requires net.Valid()
  {
    && (forall id :: id in s.followers ==> NodeEcho(net, s.sent, id, s.followers[id]))
    && (forall p, a :: FinalEchoSent(p, a) in s.sent ==> SentEchoOk(net, s.followers, p, a))
  }

  // ----- One follower -----

  lemma GrowKeepsNodeEcho(net: Network, sent: set<Message>, sent': set<Message>, id: InstanceId, n: FollowerNode)
    requires net.Valid() && NodeEcho(net, sent, id, n) && sent <= sent'
    ensures NodeEcho(net, sent', id, n)
  {
    forall p | p in n.state.receivedEcho && p in net.Correct() ensures EchoReal(sent', n, p) {
      assert EchoReal(sent, n, p);
      var round :| HasEchoed(sent, p, n.config.epoch, round) && round <= n.state.round
                   && (round < n.state.round <==> p in n.carried);
      GrowKeepsEchoed(sent, sent', p, n.config.epoch, round);
    }
  }

  lemma GrowKeepsEchoed(sent: set<Message>, sent': set<Message>, p: PeerId, epoch: int, round: int)
    requires HasEchoed(sent, p, epoch, round) && sent <= sent'
    ensures HasEchoed(sent', p, epoch, round)
  {
    var a :| FinalEchoSent(p, a) in sent && a.epoch == epoch && a.round == round;
    assert FinalEchoSent(p, a) in sent';
  }

  /** The recorded echoes stay as they are, in the same round. */
  lemma SameEchoesReal(net: Network, sent: set<Message>, n: FollowerNode, t: FollowerNode)
    requires EchoesReal(net, sent, n) && t.config == n.config && t.state.round == n.state.round
    requires t.state.receivedEcho == n.state.receivedEcho && t.carried == n.carried
    ensures EchoesReal(net, sent, t)
  {
    forall p | p in t.state.receivedEcho && p in net.Correct() ensures EchoReal(sent, t, p) {
      assert EchoReal(sent, n, p);
    }
  }

  /** Entering the round after the last carries the recorded echoes over. */
  lemma CarriedEchoesReal(net: Network, sent: set<Message>, n: FollowerNode, t: FollowerNode)
    requires EchoesReal(net, sent, n) && t.config == n.config && n.state.round < t.state.round
    requires t.carried == t.state.receivedEcho <= n.state.receivedEcho
    ensures EchoesReal(net, sent, t)
  {
    forall p | p in t.state.receivedEcho && p in net.Correct() ensures EchoReal(sent, t, p) {
      assert EchoReal(sent, n, p);
    }
  }

  lemma NewEchoReal(net: Network, sent: set<Message>, n: FollowerNode, t: FollowerNode, p: PeerId)
    requires EchoesReal(net, sent, n) && t.config == n.config && t.state.round == n.state.round
    requires t.state.receivedEcho == n.state.receivedEcho + {p} && t.carried == n.carried && p !in n.carried
    requires p in net.Correct() ==> HasEchoed(sent, p, n.config.epoch, n.state.round)
    ensures EchoesReal(net, sent, t)
  {
    forall q | q in t.state.receivedEcho && q in net.Correct() ensures EchoReal(sent, t, q) {
      if q == p {
        assert HasEchoed(sent, p, t.config.epoch, t.state.round);
      } else {
        assert EchoReal(sent, n, q);
      }
    }
  }

  lemma ObserveReqKeepsNode(net: Network, sent: set<Message>, id: InstanceId, n: FollowerNode, input: FollowerInput)
    requires net.Valid() && NodeEcho(net, sent, id, n) && input.ObserveReq?
    ensures NodeEcho(net, sent, id, Advance(n, input, React(n.config, n.state, input)))
  {
    var t := Advance(n, input, React(n.config, n.state, input));
    CorrectMajority(net.ledger, net.faulty);
    if t.state.round == n.state.round {
      SameEchoesReal(net, sent, n, t);
    } else {
      CarriedEchoesReal(net, sent, n, t);
    }
  }

  lemma ReportReqKeepsNode(net: Network, sent: set<Message>, id: InstanceId, n: FollowerNode, input: FollowerInput)
    requires net.Valid() && NodeEcho(net, sent, id, n) && input.ReportReq?
    ensures NodeEcho(net, sent, id, Advance(n, input, React(n.config, n.state, input)))
  {
    var r := React(n.config, n.state, input);
    assert forall a :: Transmit(a) !in r.out;
    SameEchoesReal(net, sent, n, Advance(n, input, r));
  }

  lemma FinalKeepsNode(net: Network, sent: set<Message>, id: InstanceId, n: FollowerNode, input: FollowerInput)
    requires net.Valid() && NodeEcho(net, sent, id, n) && input.Final?
    ensures NodeEcho(net, sent, id, Advance(n, input, React(n.config, n.state, input)))
  {
    var r := React(n.config, n.state, input);
    assert forall a :: Transmit(a) !in r.out;
    SameEchoesReal(net, sent, n, Advance(n, input, r));
  }

  /** The records of a follower that has just handled an echo. */
  lemma EchoKeepsRecords(net: Network, id: InstanceId, n: FollowerNode, input: FollowerInput)
    requires net.Valid() && ConfigOk(net, id, n.config) && RecordsOk(net, n) && input.FinalEcho?
    requires EchoOk(n.config, n.state, input.from, input.aggregator, input.attested)
    ensures RecordsOk(net, Advance(n, input, React(n.config, n.state, input)))
  {
    var r := React(n.config, n.state, input);
    if |n.state.receivedEcho + {input.from}| > FaultBound(net.ledger) {
      assert r.out[|r.out| - 2] == Transmit(input.attested);
    } else {
      assert forall a :: Transmit(a) !in r.out;
    }
  }

  lemma IgnoredKeepsRecords(net: Network, id: InstanceId, n: FollowerNode, input: FollowerInput)
    requires net.Valid() && ConfigOk(net, id, n.config) && RecordsOk(net, n) && input.FinalEcho?
    requires input.from in net.Correct() && input.aggregator == net.aggregator ==>
      AttestedOk(net.aggregator, net.ledger, input.attested)
    requires !EchoOk(n.config, n.state, input.from, input.aggregator, input.attested)
    ensures RecordsOk(net, Advance(n, input, React(n.config, n.state, input)))
  {
  }

  lemma EchoKeepsNode(net: Network, sent: set<Message>, id: InstanceId, n: FollowerNode, input: FollowerInput)
    requires net.Valid() && NodeEcho(net, sent, id, n) && input.FinalEcho?
    requires FollowerAuthentic(net, sent, input)
    requires forall p, a :: FinalEchoSent(p, a) in sent ==> AttestedOk(net.aggregator, net.ledger, a)
    ensures NodeEcho(net, sent, id, Advance(n, input, React(n.config, n.state, input)))
  {
    var t := Advance(n, input, React(n.config, n.state, input));
    if EchoOk(n.config, n.state, input.from, input.aggregator, input.attested) {
      EchoKeepsRecords(net, id, n, input);
      if input.from in net.Correct() {
        assert FinalEchoSent(input.from, input.attested) in sent;
        assert HasEchoed(sent, input.from, n.config.epoch, n.state.round);
      }
      NewEchoReal(net, sent, n, t, input.from);
    } else {
      IgnoredKeepsRecords(net, id, n, input);
      SameEchoesReal(net, sent, n, t);
    }
  }

  lemma ReactKeepsNode(net: Network, sent: set<Message>, id: InstanceId, n: FollowerNode, input: FollowerInput)
    requires net.Valid() && NodeEcho(net, sent, id, n) && FollowerAuthentic(net, sent, input)
    requires forall p, a :: FinalEchoSent(p, a) in sent ==> AttestedOk(net.aggregator, net.ledger, a)
    ensures NodeEcho(net, sent, id, Advance(n, input, React(n.config, n.state, input)))
  {
    match input
    case ObserveReq(_, _, _, _) => ObserveReqKeepsNode(net, sent, id, n, input);
    case ReportReq(_, _, _, _, _, _) => ReportReqKeepsNode(net, sent, id, n, input);
    case Final(_, _, _) => FinalKeepsNode(net, sent, id, n, input);
    case FinalEcho(_, _, _) => EchoKeepsNode(net, sent, id, n, input);
  }

  /** An echo is broadcast for the follower's own epoch and current round, and remembered. */
  lemma BroadcastEchoOk(c: Config, s: FollowerState, input: FollowerInput, a: AttestedReport)
    requires ValidLedger(c.ledger) && BroadcastFinalEcho(a) in React(c, s, input).out
    ensures a.epoch == c.epoch && a.round == s.round == React(c, s, input).state.round
    ensures AttestedOk(c.aggregator, c.ledger, a) && React(c, s, input).state.sentEcho.Some?
  {
  }

  // ----- The system -----

  lemma FollowerKeepsNodes(net: Network, s: System, id: InstanceId, input: FollowerInput)
    requires net.Valid() && EchoInv(net, s) && id in s.followers && FollowerAuthentic(net, s.sent, input)
    ensures
      var t := FollowerApplied(s, id, input, React(s.followers[id].config, s.followers[id].state, input));
      forall i :: i in t.followers ==> NodeEcho(net, t.sent, i, t.followers[i])
  {
    var n := s.followers[id];
    var r := React(n.config, n.state, input);
    var t := FollowerApplied(s, id, input, r);
    ReactKeepsNode(net, s.sent, id, n, input);
    UpdateKeepsNodes(net, s, t, id, Advance(n, input, r));
  }

  lemma UpdateKeepsNodes(net: Network, s: System, t: System, id: InstanceId, n: FollowerNode)
    requires net.Valid() && (forall i :: i in s.followers ==> NodeEcho(net, s.sent, i, s.followers[i]))
    requires NodeEcho(net, s.sent, id, n) && s.sent <= t.sent && t.followers == s.followers[id := n]
    ensures forall i :: i in t.followers ==> NodeEcho(net, t.sent, i, t.followers[i])
  {
    forall i | i in t.followers ensures NodeEcho(net, t.sent, i, t.followers[i]) {
      GrowKeepsNodeEcho(net, s.sent, t.sent, i, t.followers[i]);
    }
  }

  lemma UpdateKeepsSentEcho(net: Network, followers: map<InstanceId, FollowerNode>, id: InstanceId, n: FollowerNode,
                            p: PeerId, a: AttestedReport)
    requires SentEchoOk(net, followers, p, a)
    requires id in followers ==>
      followers[id].state.round <= n.state.round &&
      (followers[id].state.round == n.state.round && followers[id].state.sentEcho.Some? ==> n.state.sentEcho.Some?)
    requires id !in followers ==> InstanceId(p, a.epoch) != id
    ensures SentEchoOk(net, followers[id := n], p, a)
  {
  }

  lemma NewEchoOk(net: Network, followers: map<InstanceId, FollowerNode>, id: InstanceId, n: FollowerNode,
                  a: AttestedReport)
    requires AttestedOk(net.aggregator, net.ledger, a)
    requires a.epoch == id.epoch && a.round == n.state.round && n.state.sentEcho.Some?
    ensures SentEchoOk(net, followers[id := n], id.oracle, a)
  {
  }

  lemma FollowerKeepsSent(net: Network, s: System, id: InstanceId, input: FollowerInput, p: PeerId, a: AttestedReport)
    requires net.Valid() && EchoInv(net, s) && id in s.followers && FollowerAuthentic(net, s.sent, input)
    requires
      var n := s.followers[id];
      FinalEchoSent(p, a) in s.sent + FollowerMessages(id.oracle, React(n.config, n.state, input).out)
    ensures
      var n := s.followers[id];
      SentEchoOk(net, s.followers[id := Advance(n, input, React(n.config, n.state, input))], p, a)
  {
    var n := s.followers[id];
    assert NodeEcho(net, s.sent, id, n);
    var after := Advance(n, input, React(n.config, n.state, input));
    ReactRound(n.config, n.state, input);
    if FinalEchoSent(p, a) in s.sent {
      UpdateKeepsSentEcho(net, s.followers, id, after, p, a);
    } else {
      BroadcastEchoOk(n.config, n.state, input, a);
      NewEchoOk(net, s.followers, id, after, a);
    }
  }

  lemma LeaderKeepsEcho(net: Network, s: System, id: InstanceId, r: LeaderResult)
    requires net.Valid() && EchoInv(net, s) && id in s.leaders
    ensures EchoInv(net, LeaderApplied(s, id, r))
  {
    var t := LeaderApplied(s, id, r);
    forall i | i in t.followers ensures NodeEcho(net, t.sent, i, t.followers[i]) {
      GrowKeepsNodeEcho(net, s.sent, t.sent, i, t.followers[i]);
    }
    forall p, a | FinalEchoSent(p, a) in t.sent ensures SentEchoOk(net, t.followers, p, a) {
      assert FinalEchoSent(p, a) in s.sent;
    }
  }

  lemma FreshNodeEcho(net: Network, sent: set<Message>, id: InstanceId, c: Config)
    requires net.Valid() && ConfigOk(net, id, c)
    ensures NodeEcho(net, sent, id, FollowerNode(c, Follower.INITIAL, false, false, {}, {}))
  {
    CorrectMajority(net.ledger, net.faulty);
  }

  lemma StartKeepsEcho(net: Network, s: System, id: InstanceId, heartbeat: int, alpha: real)
    requires net.Valid() && EchoInv(net, s) && id.oracle in net.Correct() && id !in s.followers
    ensures EchoInv(net, Started(net, s, id, heartbeat, alpha))
  {
    var t := Started(net, s, id, heartbeat, alpha);
    FreshNodeEcho(net, s.sent, id, t.followers[id].config);
    forall i | i in t.followers ensures NodeEcho(net, t.sent, i, t.followers[i]) {
      if i != id {
        GrowKeepsNodeEcho(net, s.sent, t.sent, i, s.followers[i]);
      }
    }
    forall p, a | FinalEchoSent(p, a) in t.sent ensures SentEchoOk(net, t.followers, p, a) {
      UpdateKeepsSentEcho(net, s.followers, id, t.followers[id], p, a);
    }
  }

  lemma NextKeepsEcho(net: Network, s: System, t: System, step: Step)
    requires net.Valid() && EchoInv(net, s) && Next(net, s, t, step)
    ensures EchoInv(net, t)
  {
    match step
    case StartInstance(id, heartbeat, alpha) => StartKeepsEcho(net, s, id, heartbeat, alpha);
    case LeaderStep(id, input) =>
      LeaderKeepsEcho(net, s, id, LeaderReact(s.leaders[id].config, s.leaders[id].state, input));
    case FollowerStep(id, input) =>
      FollowerKeepsNodes(net, s, id, input);
      forall p, a | FinalEchoSent(p, a) in t.sent ensures SentEchoOk(net, t.followers, p, a) {
        FollowerKeepsSent(net, s, id, input, p, a);
      }
  }

  lemma {:induction false} RunKeepsEcho(net: Network, states: seq<System>, steps: seq<Step>, k: nat)
    requires net.Valid() && IsRun(net, states, steps) && k < |states|
    ensures EchoInv(net, states[k])
  {
    if k > 0 {
      RunKeepsEcho(net, states, steps, k - 1);
      NextKeepsEcho(net, states[k - 1], states[k], steps[k - 1]);
    }
  }

  // ----- Agreement on transmission -----

  /** Every correct oracle runs this epoch, is in this round, and has not declined to report in it. */
  ghost predicate AllInRound(net: Network, s: System, epoch: nat, round: int) {
    forall p :: p in net.Correct() ==>
      && InstanceId(p, epoch) in s.followers
      && s.followers[InstanceId(p, epoch)].state.round == round
      && !s.followers[InstanceId(p, epoch)].declined
  }

  /** Every correct oracle has handled the echo of every correct oracle that has broadcast one. */
  ghost predicate EchoesDelivered(net: Network, s: System, epoch: nat)
    requires forall p :: p in net.Correct() ==> InstanceId(p, epoch) in s.followers
  {
    forall p, q :: p in net.Correct() && q in net.Correct() && s.followers[InstanceId(p, epoch)].state.sentEcho.Some? ==>
      p in s.followers[InstanceId(q, epoch)].heard
  }

  /** The correct oracles among the recorded echoes of a transmitter really echoed in this round. */
  lemma TransmitterHeardCorrect(net: Network, s: System, epoch: nat, round: int, p: PeerId) returns (q: PeerId)
    requires net.Valid() && EchoInv(net, s) && round <= ROUND_MAX && AllInRound(net, s, epoch, round)
    requires p in net.Correct() && s.followers[InstanceId(p, epoch)].transmitted
    ensures q in net.Correct() && s.followers[InstanceId(q, epoch)].state.sentEcho.Some?
  {
    var n := s.followers[InstanceId(p, epoch)];
    assert NodeEcho(net, s.sent, InstanceId(p, epoch), n);
    q := QuorumHasCorrect(n.state.receivedEcho, net.faulty);
    assert EchoReal(s.sent, n, q);
    assert HasEchoed(s.sent, q, epoch, round);
    var a :| FinalEchoSent(q, a) in s.sent && a.epoch == epoch && a.round == round;
    assert SentEchoOk(net, s.followers, q, a);
  }

  lemma DeliveryMakesEcho(net: Network, s: System, epoch: nat, round: int, q: PeerId, p: PeerId)
    requires net.Valid() && EchoInv(net, s) && round <= ROUND_MAX && AllInRound(net, s, epoch, round)
    requires EchoesDelivered(net, s, epoch) && p in net.Correct() && q in net.Correct()
    requires s.followers[InstanceId(q, epoch)].state.sentEcho.Some?
    ensures s.followers[InstanceId(p, epoch)].state.sentEcho.Some?
  {
    var n := s.followers[InstanceId(p, epoch)];
    CorrectMajority(net.ledger, net.faulty);
    assert NodeEcho(net, s.sent, InstanceId(p, epoch), n);
    assert q in n.heard;
  }

  /** If every correct oracle is in the same epoch and round up to the last, none declined to report,
      and every correct echo has been handled by every correct oracle, then in that round either all
      correct oracles have transmitted or none has. */
  lemma AllOrNoneTransmit(net: Network, states: seq<System>, steps: seq<Step>, k: nat, epoch: nat, round: int,
                          p: PeerId, q: PeerId)
    requires net.Valid() && IsRun(net, states, steps) && k < |states| && round <= ROUND_MAX
    requires AllInRound(net, states[k], epoch, round) && EchoesDelivered(net, states[k], epoch)
    requires p in net.Correct() && q in net.Correct()
    ensures states[k].followers[InstanceId(p, epoch)].transmitted == states[k].followers[InstanceId(q, epoch)].transmitted
  {
    RunKeepsEcho(net, states, steps, k);
    if states[k].followers[InstanceId(p, epoch)].transmitted {
      TransmissionSpreads(net, states[k], epoch, round, p, q);
    } else if states[k].followers[InstanceId(q, epoch)].transmitted {
      TransmissionSpreads(net, states[k], epoch, round, q, p);
    }
  }

  lemma TransmissionSpreads(net: Network, s: System, epoch: nat, round: int, p: PeerId, q: PeerId)
    requires net.Valid() && EchoInv(net, s) && round <= ROUND_MAX
    requires AllInRound(net, s, epoch, round) && EchoesDelivered(net, s, epoch)
    requires p in net.Correct() && q in net.Correct() && s.followers[InstanceId(p, epoch)].transmitted
    ensures s.followers[InstanceId(q, epoch)].transmitted
  {
    var n := s.followers[InstanceId(q, epoch)];
    var first := TransmitterHeardCorrect(net, s, epoch, round, p);
    forall r | r in net.Correct() ensures r in n.heard {
      DeliveryMakesEcho(net, s, epoch, round, first, r);
    }
    assert NodeEcho(net, s.sent, InstanceId(q, epoch), n);
    CorrectMajority(net.ledger, net.faulty);
    if !n.state.completedRound {
      SubsetSize(net.Correct(), n.state.receivedEcho);
    }
  }

  /** Behind every transmission of a correct oracle is a correct oracle whose recorded echo it verified
      and broadcast in that very epoch; it is of that very round unless it was carried over, and echoes
      are carried over only into the round after the last. */
  lemma TransmissionIsBacked(net: Network, states: seq<System>, steps: seq<Step>, k: nat, id: InstanceId)
    returns (q: PeerId, a: AttestedReport)
    requires net.Valid() && IsRun(net, states, steps) && k < |states| && id in states[k].followers
    requires states[k].followers[id].transmitted
    ensures q in net.Correct() && q in states[k].followers[id].state.receivedEcho
    ensures FinalEchoSent(q, a) in states[k].sent && AttestedOk(net.aggregator, net.ledger, a)
    ensures a.epoch == id.epoch && a.round <= states[k].followers[id].state.round
    ensures a.round == states[k].followers[id].state.round <==> q !in states[k].followers[id].carried
    ensures states[k].followers[id].state.round <= ROUND_MAX ==> states[k].followers[id].carried == {}
    ensures |states[k].followers[id].state.receivedEcho - states[k].followers[id].carried| > FaultBound(net.ledger) ==>
            q !in states[k].followers[id].carried
  {
    RunKeepsEcho(net, states, steps, k);
    var n := states[k].followers[id];
    assert NodeEcho(net, states[k].sent, id, n);
    var ofRound := n.state.receivedEcho - n.carried;
    q := QuorumHasCorrect(if |ofRound| > FaultBound(net.ledger) then ofRound else n.state.receivedEcho, net.faulty);
    assert EchoReal(states[k].sent, n, q);
    var round :| HasEchoed(states[k].sent, q, n.config.epoch, round) && round <= n.state.round
                 && (round < n.state.round <==> q in n.carried);
    a :| FinalEchoSent(q, a) in states[k].sent && a.epoch == n.config.epoch && a.round == round;
    assert SentEchoOk(net, states[k].followers, q, a);
  }
}
