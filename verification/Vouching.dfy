/** Who stands behind an attested report that correct oracles accept: a correct oracle that signed it,
    exactly if its signatures name more than f distinct oracles. */
module Vouching {
  import opened Options
  import opened Ledger
  import opened Networks
  import opened Reports
  import opened Contract
  import opened Follower
  import opened Leader
  import opened ReportSystem
  import opened Attestation
  import opened EchoAgreement

  // ----- Signatures that are not forged -----

  /** The signatures inside the message handled in a step. */
  function Carried(step: Step): seq<Signature> {
    match step
    case FollowerStep(_, Final(_, _, attested)) => attested.signatures
    case FollowerStep(_, FinalEcho(_, _, attested)) => attested.signatures
    case LeaderStep(_, ReportMsg(_, _, _, signature)) => [signature]
    case _ => []
  }

  /** The signature names the correct oracle `p` and was made with its key. */
  ghost predicate MadeBy(net: Network, p: PeerId, signature: Signature) {
    && p in net.Correct() && signature.oracle == InfoOf(net, p).address
    && signature.value.Signed? && signature.value.key == InfoOf(net, p).publicKey
  }

  ghost predicate SentBy(sent: set<Message>, p: PeerId, signature: Signature) {
    exists to, c :: ReportSent(p, to, c, signature) in sent
  }

  /** No message contains a signature of a correct oracle that this oracle has not sent before. */
  ghost predicate Unforged(net: Network, states: seq<System>, steps: seq<Step>)
    requires |states| == |steps| + 1
  {
    forall i, p, signature :: 0 <= i < |steps| && signature in Carried(steps[i]) && MadeBy(net, p, signature) ==>
      SentBy(states[i].sent, p, signature)
  }

  /** In this step a correct follower accepts the attested report `a`, as a final or as an echo. */
  ghost predicate Handles(net: Network, step: Step, a: AttestedReport) {
    && step.FollowerStep? && AttestedOk(net.aggregator, net.ledger, a)
    && ((step.followerInput.Final? && step.followerInput.attested == a) ||
        (step.followerInput.FinalEcho? && step.followerInput.attested == a))
  }

  ghost predicate TransmitsAt(s: System, step: Step, id: InstanceId, a: AttestedReport) {
    && step.FollowerStep? && step.id == id && id in s.followers && ValidLedger(s.followers[id].config.ledger)
    && Transmit(a) in Follower.React(s.followers[id].config, s.followers[id].state, step.followerInput).out
  }

  // ----- More than f distinct signers -----

  ghost function AddressesOf(net: Network, peers: set<PeerId>): set<Address> {
    set p | p in peers && p in PeerIds(net.ledger) :: InfoOf(net, p).address
  }

  lemma {:induction false} FewAddresses(net: Network, peers: set<PeerId>)
    ensures |AddressesOf(net, peers)| <= |peers|
  {
    if peers != {} {
      var p :| p in peers;
      FewAddresses(net, peers - {p});
      if p in PeerIds(net.ledger) {
        assert AddressesOf(net, peers) == AddressesOf(net, peers - {p}) + {InfoOf(net, p).address};
      } else {
        assert AddressesOf(net, peers) == AddressesOf(net, peers - {p});
      }
    }
  }

  lemma SignerOf(net: Network, a: AttestedReport, s: Signature) returns (info: OracleInfo)
    requires net.Valid() && AttestedOk(net.aggregator, net.ledger, a) && s in a.signatures
    ensures info in net.ledger && info.peerId in PeerIds(net.ledger) && InfoOf(net, info.peerId) == info
    ensures FindByAddress(net.ledger, s.oracle) == Some(info) && s.oracle == info.address
    ensures FinalPayload(net, a).Some? && s.value == Signed(info.publicKey, FinalPayload(net, a).value)
  {
    assert SignedBy(net.ledger, FinalPayload(net, a).value, s);
    info := FindByAddress(net.ledger, s.oracle).value;
    LookupsAgree(net.ledger, info);
  }

  lemma SentPayload(net: Network, s: System, p: PeerId, to: PeerId, c: CompressedReport, signature: Signature,
                    payload: Payload)
    requires net.Valid() && AttestInv(net, s) && ReportSent(p, to, c, signature) in s.sent
    requires p in net.Correct() && signature.value == Signed(InfoOf(net, p).publicKey, payload)
    ensures CompressedPayload(net, c) == Some(payload)
  {
    assert SentOk(net, s.sent, s.leaders, ReportSent(p, to, c, signature));
    assert AnswerOk(net, s.sent, p, to, c, signature);
  }

  /** More than f distinct signers include a correct one. */
  lemma CorrectSigner(net: Network, a: AttestedReport) returns (p: PeerId, signature: Signature)
    requires net.Valid() && AttestedOk(net.aggregator, net.ledger, a) && |Signers(a.signatures)| > FaultBound(net.ledger)
    ensures signature in a.signatures && MadeBy(net, p, signature) && FinalPayload(net, a).Some?
    ensures signature.value == Signed(InfoOf(net, p).publicKey, FinalPayload(net, a).value)
  {
    var bad := AddressesOf(net, net.faulty);
    FewAddresses(net, net.faulty);
    CorrectMajority(net.ledger, net.faulty);
    VouchedExactly(a.signatures, FaultBound(net.ledger));
    assert SignedOutside(a.signatures, bad);
    signature :| signature in a.signatures && signature.oracle !in bad;
    var info := SignerOf(net, a, signature);
    p := info.peerId;
  }

  lemma CarriesItsSignatures(net: Network, step: Step, a: AttestedReport)
    requires Handles(net, step, a)
    ensures Carried(step) == a.signatures
  {
  }

  lemma UnforgedAt(net: Network, states: seq<System>, steps: seq<Step>, i: nat, p: PeerId, signature: Signature)
    requires |states| == |steps| + 1 && Unforged(net, states, steps) && i < |steps|
    requires signature in Carried(steps[i]) && MadeBy(net, p, signature)
    ensures SentBy(states[i].sent, p, signature)
  {
  }

  /** Without forged signatures, behind every accepted report whose signatures name more than f distinct
      oracles is a correct oracle that signed it, having got a report of this payload from its leader, of
      at least 2f + 1 different oracles and with every observation signed by the oracle it names. */
  lemma VouchedByCorrect(net: Network, states: seq<System>, steps: seq<Step>, i: nat, a: AttestedReport)
    returns (p: PeerId, to: PeerId, c: CompressedReport, signature: Signature, report: Report)
    requires net.Valid() && IsRun(net, states, steps) && Unforged(net, states, steps)
    requires i < |steps| && Handles(net, steps[i], a) && |Signers(a.signatures)| > FaultBound(net.ledger)
    ensures p in net.Correct() && signature in a.signatures && ReportSent(p, to, c, signature) in states[i].sent
    ensures CompressedPayload(net, c) == FinalPayload(net, a)
    ensures c == Compress(report) && Checked(net.ledger, report)
    ensures to in net.Correct() ==> ReportReqSent(to, report) in states[i].sent
  {
    p, signature := CorrectSigner(net, a);
    CarriesItsSignatures(net, steps[i], a);
    UnforgedAt(net, states, steps, i, p, signature);
    to, c :| ReportSent(p, to, c, signature) in states[i].sent;
    RunKeepsAttest(net, states, steps, i);
    SentPayload(net, states[i], p, to, c, signature, FinalPayload(net, a).value);
    var j := SignedReportWasChecked(net, states, steps, i, p, to, c, signature);
    RunSentGrows(net, states, steps, j, i);
    report := steps[j].followerInput.report;
  }

  /** Whatever a correct follower echoes or transmits, it has accepted in that step. */
  lemma OutputsAreHandled(net: Network, states: seq<System>, steps: seq<Step>, i: nat, a: AttestedReport)
    requires net.Valid() && IsRun(net, states, steps) && i < |steps| && steps[i].FollowerStep?
    requires steps[i].id in states[i].followers && ValidLedger(states[i].followers[steps[i].id].config.ledger)
    requires
      var n := states[i].followers[steps[i].id];
      var out := Follower.React(n.config, n.state, steps[i].followerInput).out;
      Transmit(a) in out || BroadcastFinalEcho(a) in out
    ensures Handles(net, steps[i], a)
  {
    RunKeepsEcho(net, states, steps, i);
    var n := states[i].followers[steps[i].id];
    assert NodeEcho(net, states[i].sent, steps[i].id, n);
    OutputsAccepted(n.config, n.state, steps[i].followerInput, a);
  }

  lemma OutputsAccepted(c: Config, s: FollowerState, input: FollowerInput, a: AttestedReport)
    requires ValidLedger(c.ledger)
    requires Transmit(a) in Follower.React(c, s, input).out || BroadcastFinalEcho(a) in Follower.React(c, s, input).out
    ensures AttestedOk(c.aggregator, c.ledger, a)
    ensures (input.Final? && input.attested == a) || (input.FinalEcho? && input.attested == a)
  {
  }

  // ----- Reports that only faulty oracles signed -----

  ghost predicate SignersFaulty(net: Network, a: AttestedReport) {
    forall s :: s in a.signatures ==>
      var info := FindByAddress(net.ledger, s.oracle);
      info.Some? && info.value.peerId in net.faulty
  }

  /** A run without forgery in which a correct oracle transmits `a` though no correct oracle signed it. */
  ghost predicate Invented(net: Network, states: seq<System>, steps: seq<Step>, a: AttestedReport)
    requires net.Valid()
  {
    && IsRun(net, states, steps) && Unforged(net, states, steps)
    && (exists i, id :: 0 <= i < |steps| && TransmitsAt(states[i], steps[i], id, a))
    && forall p, s :: s in a.signatures && p in net.Correct() ==> !SentBy(states[|steps|].sent, p, s)
  }

  /** Whether the report could be of a round that followers run. */
  predicate InRange(a: AttestedReport) {
    0 <= a.epoch && 0 <= a.round <= ROUND_MAX + 1
  }

  lemma InventedNeedsFaulty(net: Network, states: seq<System>, steps: seq<Step>, a: AttestedReport)
    requires net.Valid() && Invented(net, states, steps, a)
    ensures AttestedOk(net.aggregator, net.ledger, a) && InRange(a) && SignersFaulty(net, a)
  {
    var i, id :| 0 <= i < |steps| && TransmitsAt(states[i], steps[i], id, a);
    assert Next(net, states[i], states[i + 1], steps[i]);
    RunKeepsEcho(net, states, steps, i);
    RunSentGrows(net, states, steps, i, |steps|);
    var n := states[i].followers[id];
    assert NodeEcho(net, states[i].sent, id, n);
    TransmitState(n.config, n.state, steps[i].followerInput, a);
    TransmitInput(n.config, n.state, steps[i].followerInput, a);
    forall s | s in a.signatures
      ensures FindByAddress(net.ledger, s.oracle).Some? && FindByAddress(net.ledger, s.oracle).value.peerId in net.faulty
    {
      var info := SignerOf(net, a, s);
      if info.peerId !in net.faulty {
        assert MadeBy(net, info.peerId, s);
        assert s in Carried(steps[i]);
        SentStays(states[i].sent, states[|steps|].sent, info.peerId, s);
      }
    }
  }

  lemma TransmitInput(c: Config, s: FollowerState, input: FollowerInput, a: AttestedReport)
    requires ValidLedger(c.ledger) && Transmit(a) in Follower.React(c, s, input).out
    ensures input.FinalEcho? && input.attested == a
  {
  }

  lemma SentStays(sent: set<Message>, sent': set<Message>, p: PeerId, signature: Signature)
    requires SentBy(sent, p, signature) && sent <= sent'
    ensures SentBy(sent', p, signature)
  {
    var to, c :| ReportSent(p, to, c, signature) in sent;
    assert ReportSent(p, to, c, signature) in sent';
  }

  // ----- Such a report makes all correct oracles transmit -----

  datatype Trace = Trace(states: seq<System>, steps: seq<Step>)

  ghost predicate Good(net: Network, tr: Trace)
    requires net.Valid()
  {
    && IsRun(net, tr.states, tr.steps) && Unforged(net, tr.states, tr.steps)
    && forall m :: m in tr.states[|tr.steps|].sent ==> !m.ReportSent?
  }

  ghost function Now(net: Network, tr: Trace): System
    requires net.Valid() && Good(net, tr)
  {
    tr.states[|tr.steps|]
  }

  ghost predicate HasTransmitted(tr: Trace, id: InstanceId, a: AttestedReport) {
    exists i :: 0 <= i < |tr.steps| && i < |tr.states| && TransmitsAt(tr.states[i], tr.steps[i], id, a)
  }

  ghost predicate Continues(tr: Trace, tr': Trace, a: AttestedReport) {
    forall id :: HasTransmitted(tr, id, a) ==> HasTransmitted(tr', id, a)
  }

  lemma Extend(net: Network, tr: Trace, step: Step, t: System, a: AttestedReport) returns (tr': Trace)
    requires net.Valid() && Good(net, tr) && Next(net, Now(net, tr), t, step)
    requires forall p, s :: s in Carried(step) ==> !MadeBy(net, p, s)
    requires forall m :: m in t.sent ==> !m.ReportSent?
    ensures Good(net, tr') && Now(net, tr') == t && Continues(tr, tr', a)
    ensures forall id :: TransmitsAt(Now(net, tr), step, id, a) ==> HasTransmitted(tr', id, a)
  {
    tr' := Trace(tr.states + [t], tr.steps + [step]);
    forall i, p, s | 0 <= i < |tr'.steps| && s in Carried(tr'.steps[i]) && MadeBy(net, p, s)
      ensures SentBy(tr'.states[i].sent, p, s)
    {
      assert i < |tr.steps|;
    }
    forall id | HasTransmitted(tr, id, a) ensures HasTransmitted(tr', id, a) {
      var i :| 0 <= i < |tr.steps| && i < |tr.states| && TransmitsAt(tr.states[i], tr.steps[i], id, a);
      assert TransmitsAt(tr'.states[i], tr'.steps[i], id, a);
    }
    forall id | TransmitsAt(Now(net, tr), step, id, a) ensures HasTransmitted(tr', id, a) {
      assert TransmitsAt(tr'.states[|tr.steps|], tr'.steps[|tr.steps|], id, a);
    }
  }

  lemma FaultyNotCorrect(net: Network, a: AttestedReport, p: PeerId, s: Signature)
    requires net.Valid() && SignersFaulty(net, a) && s in a.signatures
    ensures !MadeBy(net, p, s)
  {
    if p in net.Correct() && s.oracle == InfoOf(net, p).address {
      LookupsAgree(net.ledger, InfoOf(net, p));
    }
  }

  /** A follower handles an input that carries no signatures but those of `a`. */
  lemma FollowerMoves(net: Network, tr: Trace, a: AttestedReport, id: InstanceId,
                      input: FollowerInput) returns (tr': Trace)
    requires net.Valid() && Good(net, tr) && SignersFaulty(net, a) && id in Now(net, tr).followers
    requires ValidLedger(Now(net, tr).followers[id].config.ledger)
    requires FollowerAuthentic(net, Now(net, tr).sent, input)
    requires input.ObserveReq? || (input.FinalEcho? && input.attested == a)
    ensures Good(net, tr') && Continues(tr, tr', a)
    ensures
      var n := Now(net, tr).followers[id];
      var r := Follower.React(n.config, n.state, input);
      && Now(net, tr') == FollowerApplied(Now(net, tr), id, input, r)
      && (Transmit(a) in r.out ==> HasTransmitted(tr', id, a))
  {
    var s := Now(net, tr);
    var n := s.followers[id];
    var r := Follower.React(n.config, n.state, input);
    var step := FollowerStep(id, input);
    forall p, signature | signature in Carried(step) ensures !MadeBy(net, p, signature) {
      FaultyNotCorrect(net, a, p, signature);
    }
    NoReports(id.oracle, n.config, n.state, input);
    tr' := Extend(net, tr, step, FollowerApplied(s, id, input, r), a);
    assert Transmit(a) in r.out ==> TransmitsAt(s, step, id, a);
  }

  lemma NoReports(p: PeerId, c: Config, s: FollowerState, input: FollowerInput)
    requires ValidLedger(c.ledger) && (input.ObserveReq? || input.FinalEcho?)
    ensures forall m :: m in FollowerMessages(p, Follower.React(c, s, input).out) ==> !m.ReportSent?
  {
  }

  ghost function IdOf(p: PeerId, a: AttestedReport): InstanceId
    requires 0 <= a.epoch
  {
    InstanceId(p, a.epoch)
  }

  ghost function ConfigAt(net: Network, p: PeerId, a: AttestedReport): Config
    requires net.Valid() && p in PeerIds(net.ledger) && 0 <= a.epoch
  {
    ConfigFor(net, IdOf(p, a), 0, 0.0)
  }

  /** A follower in the given round, before any echo. */
  ghost function QuietNode(net: Network, p: PeerId, a: AttestedReport, round: int): FollowerNode
    requires net.Valid() && p in PeerIds(net.ledger) && 0 <= a.epoch
  {
    FollowerNode(ConfigAt(net, p, a), FollowerState(round, None, false, false, {}), false, false, {}, {})
  }

  /** A follower in the round of `a` that has recorded echoes of `a` from `received`. */
  ghost function EchoNode(net: Network, p: PeerId, a: AttestedReport, received: set<PeerId>): FollowerNode
    requires net.Valid() && p in PeerIds(net.ledger) && 0 <= a.epoch
  {
    var enough := |received| > FaultBound(net.ledger);
    FollowerNode(ConfigAt(net, p, a), FollowerState(a.round, Some(a), false, enough, received), enough, false, received, {})
  }

  // ----- The stages of the run -----

  ghost predicate Quiet(net: Network, s: System, a: AttestedReport, p: PeerId, round: int)
    requires net.Valid() && 0 <= a.epoch
  {
    p in PeerIds(net.ledger) && IdOf(p, a) in s.followers && s.followers[IdOf(p, a)] == QuietNode(net, p, a, round)
  }

  ghost predicate LeaderIdle(net: Network, s: System, a: AttestedReport)
    requires net.Valid() && 0 <= a.epoch
  {
    var leader := LeaderForEpoch(net.ledger, a.epoch);
    leader in net.Correct() ==>
      IdOf(leader, a) in s.leaders && s.leaders[IdOf(leader, a)] == LeaderNode(ConfigAt(net, leader, a), LEADER_INITIAL)
  }

  /** Every correct oracle starts its instance. */
  lemma {:induction false} StartAll(net: Network, tr: Trace, a: AttestedReport, todo: set<PeerId>) returns (tr': Trace)
    requires net.Valid() && Good(net, tr) && 0 <= a.epoch && todo <= net.Correct()
    requires forall p :: p in net.Correct() - todo ==> Quiet(net, Now(net, tr), a, p, 0)
    requires forall p :: p in todo ==> IdOf(p, a) !in Now(net, tr).followers
    requires LeaderForEpoch(net.ledger, a.epoch) in todo || LeaderIdle(net, Now(net, tr), a)
    ensures Good(net, tr') && LeaderIdle(net, Now(net, tr'), a)
    ensures forall p :: p in net.Correct() ==> Quiet(net, Now(net, tr'), a, p, 0)
    decreases |todo|
  {
    if todo == {} {
      tr' := tr;
    } else {
      var p :| p in todo;
      var id := IdOf(p, a);
      var t := Started(net, Now(net, tr), id, 0, 0.0);
      var next := Extend(net, tr, StartInstance(id, 0, 0.0), t, a);
      forall q | q in net.Correct() - (todo - {p}) ensures Quiet(net, t, a, q, 0) {
        if q != p {
          assert Quiet(net, Now(net, tr), a, q, 0);
        }
      }
      tr' := StartAll(net, next, a, todo - {p});
    }
  }

  /** A correct leader opens rounds until it has asked for the round of `a`. */
  lemma {:induction false} OpenRounds(net: Network, tr: Trace, a: AttestedReport, reached: nat) returns (tr': Trace)
    requires net.Valid() && Good(net, tr) && InRange(a) && reached <= a.round
    requires LeaderForEpoch(net.ledger, a.epoch) in net.Correct()
    requires
      var id := IdOf(LeaderForEpoch(net.ledger, a.epoch), a);
      && id in Now(net, tr).leaders && Now(net, tr).leaders[id].config == ConfigAt(net, id.oracle, a)
      && Now(net, tr).leaders[id].state.round == reached
      && (reached > 0 ==> ObserveReqSent(id.oracle, reached) in Now(net, tr).sent)
    ensures Good(net, tr') && Now(net, tr').followers == Now(net, tr).followers
    ensures a.round > 0 ==> ObserveReqSent(LeaderForEpoch(net.ledger, a.epoch), a.round) in Now(net, tr').sent
    decreases a.round - reached
  {
    if reached == a.round {
      tr' := tr;
    } else {
      var next := OpenRound(net, tr, a, reached);
      tr' := OpenRounds(net, next, a, reached + 1);
    }
  }

  lemma OpenRound(net: Network, tr: Trace, a: AttestedReport, reached: nat) returns (tr': Trace)
    requires net.Valid() && Good(net, tr) && 0 <= a.epoch
    requires LeaderForEpoch(net.ledger, a.epoch) in net.Correct()
    requires
      var id := IdOf(LeaderForEpoch(net.ledger, a.epoch), a);
      && id in Now(net, tr).leaders && Now(net, tr).leaders[id].config == ConfigAt(net, id.oracle, a)
      && Now(net, tr).leaders[id].state.round == reached
    ensures Good(net, tr') && Now(net, tr').followers == Now(net, tr).followers
    ensures
      var id := IdOf(LeaderForEpoch(net.ledger, a.epoch), a);
      && id in Now(net, tr').leaders && Now(net, tr').leaders[id].config == ConfigAt(net, id.oracle, a)
      && Now(net, tr').leaders[id].state.round == reached + 1
      && ObserveReqSent(id.oracle, reached + 1) in Now(net, tr').sent
  {
    var id := IdOf(LeaderForEpoch(net.ledger, a.epoch), a);
    var n := Now(net, tr).leaders[id];
    var input := if reached == 0 then StartEpochEvent(net.aggregator, a.epoch, id.oracle) else RoundTimeout;
    var r := LeaderReact(n.config, n.state, input);
    assert r == StartRound(n.state);
    assert r.out[0] == BroadcastObserveReq(reached + 1);
    tr' := Extend(net, tr, LeaderStep(id, input), LeaderApplied(Now(net, tr), id, r), a);
  }

  lemma AskNode(net: Network, p: PeerId, a: AttestedReport)
    requires net.Valid() && p in PeerIds(net.ledger) && InRange(a) && a.round > 0
    ensures
      var n := QuietNode(net, p, a, 0);
      var input := ObserveReq(LeaderForEpoch(net.ledger, a.epoch), net.aggregator, a.round, None);
      var r := Follower.React(n.config, n.state, input);
      Advance(n, input, r) == QuietNode(net, p, a, a.round) && FollowerMessages(p, r.out) == {}
  {
  }

  /** Every correct follower enters the round of `a`. */
  lemma {:induction false} AskAll(net: Network, tr: Trace, a: AttestedReport, todo: set<PeerId>) returns (tr': Trace)
    requires net.Valid() && Good(net, tr) && InRange(a) && a.round > 0 && SignersFaulty(net, a) && todo <= net.Correct()
    requires forall p :: p in net.Correct() ==> Quiet(net, Now(net, tr), a, p, if p in todo then 0 else a.round)
    requires LeaderForEpoch(net.ledger, a.epoch) in net.Correct() ==>
      ObserveReqSent(LeaderForEpoch(net.ledger, a.epoch), a.round) in Now(net, tr).sent
    ensures Good(net, tr') && forall p :: p in net.Correct() ==> Quiet(net, Now(net, tr'), a, p, a.round)
    decreases |todo|
  {
    if todo == {} {
      tr' := tr;
    } else {
      var p :| p in todo;
      assert Quiet(net, Now(net, tr), a, p, 0);
      AskNode(net, p, a);
      var input := ObserveReq(LeaderForEpoch(net.ledger, a.epoch), net.aggregator, a.round, None);
      var next := FollowerMoves(net, tr, a, IdOf(p, a), input);
      forall q | q in net.Correct() ensures Quiet(net, Now(net, next), a, q, if q in todo - {p} then 0 else a.round) {
        assert Quiet(net, Now(net, tr), a, q, if q in todo then 0 else a.round);
      }
      tr' := AskAll(net, next, a, todo - {p});
    }
  }

  ghost predicate Echoing(net: Network, s: System, a: AttestedReport, p: PeerId, received: set<PeerId>)
    requires net.Valid() && 0 <= a.epoch
  {
    && p in PeerIds(net.ledger) && IdOf(p, a) in s.followers
    && s.followers[IdOf(p, a)] == EchoNode(net, p, a, received) && FinalEchoSent(p, a) in s.sent
  }

  /** Only the instance `id` has moved. */
  ghost predicate OnlyMoved(s: System, t: System, id: InstanceId) {
    && s.sent <= t.sent
    && forall other :: other in s.followers && other != id ==>
      other in t.followers && t.followers[other] == s.followers[other]
  }

  /** What happens to `p` leaves the other followers as they are. */
  lemma OthersStay(net: Network, s: System, t: System, a: AttestedReport, p: PeerId, x: PeerId, received: set<PeerId>)
    requires net.Valid() && 0 <= a.epoch && x != p && OnlyMoved(s, t, IdOf(p, a))
    ensures Echoing(net, s, a, x, received) ==> Echoing(net, t, a, x, received)
    ensures forall round :: Quiet(net, s, a, x, round) ==> Quiet(net, t, a, x, round)
  {
  }

  lemma AllStay(net: Network, s: System, t: System, a: AttestedReport, p: PeerId, todo: set<PeerId>, received: set<PeerId>)
    requires net.Valid() && 0 <= a.epoch && OnlyMoved(s, t, IdOf(p, a))
    requires forall x :: x in todo ==> Echoing(net, s, a, x, received)
    ensures forall x :: x in todo - {p} ==> Echoing(net, t, a, x, received)
  {
    forall x | x in todo - {p} ensures Echoing(net, t, a, x, received) {
      OthersStay(net, s, t, a, p, x, received);
    }
  }

  ghost predicate Acceptable(net: Network, a: AttestedReport) {
    net.Valid() && AttestedOk(net.aggregator, net.ledger, a) && InRange(a) && SignersFaulty(net, a)
  }

  lemma FirstEchoNode(net: Network, p: PeerId, a: AttestedReport, q: PeerId)
    requires Acceptable(net, a) && p in PeerIds(net.ledger) && q in PeerIds(net.ledger) && FaultBound(net.ledger) >= 1
    ensures
      var n := QuietNode(net, p, a, a.round);
      var input := FinalEcho(q, net.aggregator, a);
      var r := Follower.React(n.config, n.state, input);
      Advance(n, input, r) == EchoNode(net, p, a, {q}) && FollowerMessages(p, r.out) == {FinalEchoSent(p, a)}
  {
    var n := QuietNode(net, p, a, a.round);
    var r := Follower.React(n.config, n.state, FinalEcho(q, net.aggregator, a));
    assert {} + {q} == {q};
    assert r.out == [BroadcastFinalEcho(a)];
    assert BroadcastFinalEcho(a) in r.out;
  }

  lemma EchoOne(net: Network, tr: Trace, a: AttestedReport, q: PeerId, p: PeerId) returns (tr': Trace)
    requires Acceptable(net, a) && Good(net, tr) && q in net.faulty && q in PeerIds(net.ledger) && FaultBound(net.ledger) >= 1
    requires Quiet(net, Now(net, tr), a, p, a.round)
    ensures Good(net, tr')
    ensures Echoing(net, Now(net, tr'), a, p, {q}) && OnlyMoved(Now(net, tr), Now(net, tr'), IdOf(p, a))
  {
    FirstEchoNode(net, p, a, q);
    tr' := FollowerMoves(net, tr, a, IdOf(p, a), FinalEcho(q, net.aggregator, a));
  }

  /** The faulty oracle `q` sends `a` as its echo to every correct follower, and they all echo it. */
  lemma {:induction false} EchoAll(net: Network, tr: Trace, a: AttestedReport, q: PeerId,
                                   todo: set<PeerId>) returns (tr': Trace)
    requires Acceptable(net, a) && Good(net, tr) && q in net.faulty && q in PeerIds(net.ledger) && FaultBound(net.ledger) >= 1
    requires todo <= net.Correct()
    requires forall p :: p in todo ==> Quiet(net, Now(net, tr), a, p, a.round)
    requires forall p :: p in net.Correct() - todo ==> Echoing(net, Now(net, tr), a, p, {q})
    ensures Good(net, tr') && forall p :: p in net.Correct() ==> Echoing(net, Now(net, tr'), a, p, {q})
    decreases |todo|
  {
    if todo == {} {
      tr' := tr;
    } else {
      var p :| p in todo;
      var next := EchoOne(net, tr, a, q, p);
      forall x | x in net.Correct() - (todo - {p}) ensures Echoing(net, Now(net, next), a, x, {q}) {
        if x != p {
          OthersStay(net, Now(net, tr), Now(net, next), a, p, x, {q});
        }
      }
      forall x | x in todo - {p} ensures Quiet(net, Now(net, next), a, x, a.round) {
        OthersStay(net, Now(net, tr), Now(net, next), a, p, x, {q});
      }
      tr' := EchoAll(net, next, a, q, todo - {p});
    }
  }

  lemma NextEchoNode(net: Network, p: PeerId, a: AttestedReport, received: set<PeerId>, x: PeerId)
    requires Acceptable(net, a) && p in PeerIds(net.ledger) && x in PeerIds(net.ledger) && x !in received
    requires |received| <= FaultBound(net.ledger)
    ensures
      var n := EchoNode(net, p, a, received);
      var input := FinalEcho(x, net.aggregator, a);
      var r := Follower.React(n.config, n.state, input);
      && Advance(n, input, r) == EchoNode(net, p, a, received + {x})
      && (|received + {x}| > FaultBound(net.ledger) ==> Transmit(a) in r.out)
  {
    var n := EchoNode(net, p, a, received);
    var r := Follower.React(n.config, n.state, FinalEcho(x, net.aggregator, a));
    if |received + {x}| > FaultBound(net.ledger) {
      assert r.out == [Transmit(a), Progress];
      assert r.out[0] == Transmit(a);
    } else {
      assert r.out == [];
    }
  }

  lemma DeliverOne(net: Network, tr: Trace, a: AttestedReport, p: PeerId, received: set<PeerId>,
                   x: PeerId) returns (tr': Trace)
    requires Acceptable(net, a) && Good(net, tr) && p in net.Correct() && x in net.Correct() && x !in received
    requires Echoing(net, Now(net, tr), a, p, received) && |received| <= FaultBound(net.ledger)
    requires FinalEchoSent(x, a) in Now(net, tr).sent
    ensures Good(net, tr') && Continues(tr, tr', a) && OnlyMoved(Now(net, tr), Now(net, tr'), IdOf(p, a))
    ensures Echoing(net, Now(net, tr'), a, p, received + {x})
    ensures |received + {x}| > FaultBound(net.ledger) ==> HasTransmitted(tr', IdOf(p, a), a)
  {
    NextEchoNode(net, p, a, received, x);
    tr' := FollowerMoves(net, tr, a, IdOf(p, a), FinalEcho(x, net.aggregator, a));
  }

  /** Hearing other correct oracles echo it, a follower transmits. */
  lemma {:induction false} DeliverTo(net: Network, tr: Trace, a: AttestedReport, p: PeerId, received: set<PeerId>,
                                     todo: set<PeerId>)
    returns (tr': Trace)
    requires Acceptable(net, a) && Good(net, tr) && p in net.Correct() && todo <= net.Correct() - received
    requires Echoing(net, Now(net, tr), a, p, received) && |received| <= FaultBound(net.ledger) < |received + todo|
    requires forall x :: x in todo ==> FinalEchoSent(x, a) in Now(net, tr).sent
    ensures Good(net, tr') && Continues(tr, tr', a) && HasTransmitted(tr', IdOf(p, a), a)
    ensures OnlyMoved(Now(net, tr), Now(net, tr'), IdOf(p, a))
    decreases |todo|
  {
    var x :| x in todo;
    var next := DeliverOne(net, tr, a, p, received, x);
    if |received + {x}| > FaultBound(net.ledger) {
      tr' := next;
    } else {
      assert received + {x} + (todo - {x}) == received + todo;
      tr' := DeliverTo(net, next, a, p, received + {x}, todo - {x});
    }
  }

  /** Having heard the faulty echo, a follower hears the correct ones. */
  lemma DeliverCorrect(net: Network, tr: Trace, a: AttestedReport, q: PeerId, p: PeerId) returns (tr': Trace)
    requires Acceptable(net, a) && Good(net, tr) && q in net.faulty && FaultBound(net.ledger) >= 1
    requires p in net.Correct() && Echoing(net, Now(net, tr), a, p, {q})
    requires forall x :: x in net.Correct() ==> FinalEchoSent(x, a) in Now(net, tr).sent
    ensures Good(net, tr') && Continues(tr, tr', a) && HasTransmitted(tr', IdOf(p, a), a)
    ensures OnlyMoved(Now(net, tr), Now(net, tr'), IdOf(p, a))
  {
    CorrectMajority(net.ledger, net.faulty);
    SubsetSize(net.Correct(), {q} + net.Correct());
    tr' := DeliverTo(net, tr, a, p, {q}, net.Correct());
  }

  lemma {:induction false} DeliverAll(net: Network, tr: Trace, a: AttestedReport, q: PeerId,
                                      todo: set<PeerId>) returns (tr': Trace)
    requires Acceptable(net, a) && Good(net, tr) && q in net.faulty && FaultBound(net.ledger) >= 1
    requires todo <= net.Correct() && forall p :: p in todo ==> Echoing(net, Now(net, tr), a, p, {q})
    requires forall x :: x in net.Correct() ==> FinalEchoSent(x, a) in Now(net, tr).sent
    requires forall p :: p in net.Correct() - todo ==> HasTransmitted(tr, IdOf(p, a), a)
    ensures Good(net, tr') && forall p :: p in net.Correct() ==> HasTransmitted(tr', IdOf(p, a), a)
    decreases |todo|
  {
    if todo == {} {
      tr' := tr;
    } else {
      var p :| p in todo;
      var next := DeliverCorrect(net, tr, a, q, p);
      AllStay(net, Now(net, tr), Now(net, next), a, p, todo, {q});
      tr' := DeliverAll(net, next, a, q, todo - {p});
    }
  }

  /** A trace in which every correct oracle transmitted and none sent a report. */
  lemma TraceInvents(net: Network, tr: Trace, a: AttestedReport)
    requires net.Valid() && 0 <= a.epoch && Good(net, tr)
    requires forall p :: p in net.Correct() ==> HasTransmitted(tr, IdOf(p, a), a)
    ensures Invented(net, tr.states, tr.steps, a)
    ensures forall p :: p in net.Correct() ==>
      exists i :: 0 <= i < |tr.steps| && TransmitsAt(tr.states[i], tr.steps[i], IdOf(p, a), a)
  {
    CorrectMajority(net.ledger, net.faulty);
    var p := QuorumHasCorrect(net.Correct(), {});
    assert HasTransmitted(tr, IdOf(p, a), a);
  }

  lemma FaultySigner(net: Network, a: AttestedReport) returns (q: PeerId)
    requires Acceptable(net, a)
    ensures q in net.faulty && q in PeerIds(net.ledger) && FaultBound(net.ledger) >= 1
  {
    CorrectMajority(net.ledger, net.faulty);
    var s := a.signatures[0];
    var info := SignerOf(net, a, s);
    q := info.peerId;
    assert q in net.faulty;
    SubsetSize({q}, net.faulty);
  }

  /** All correct oracles start, and enter the round of `a`. */
  lemma EnterRound(net: Network, a: AttestedReport) returns (tr: Trace)
    requires Acceptable(net, a)
    ensures Good(net, tr) && forall p :: p in net.Correct() ==> Quiet(net, Now(net, tr), a, p, a.round)
  {
    tr := StartAll(net, Trace([NO_INSTANCES], []), a, net.Correct());
    if a.round > 0 {
      if LeaderForEpoch(net.ledger, a.epoch) in net.Correct() {
        tr := OpenRounds(net, tr, a, 0);
      }
      tr := AskAll(net, tr, a, net.Correct());
    }
  }

  /** A report that only faulty oracles signed, sent as an echo by one of them, can make every correct
      oracle transmit it, with no forgery and without any correct oracle observing or signing. */
  lemma InventedTransmits(net: Network, a: AttestedReport) returns (states: seq<System>, steps: seq<Step>)
    requires Acceptable(net, a)
    ensures Invented(net, states, steps, a)
    ensures forall p :: p in net.Correct() ==>
      exists i :: 0 <= i < |steps| && TransmitsAt(states[i], steps[i], IdOf(p, a), a)
    ensures forall m :: m in states[|steps|].sent ==> !m.ReportSent?
  {
    var q := FaultySigner(net, a);
    var tr := EnterRound(net, a);
    tr := EchoAll(net, tr, a, q, net.Correct());
    tr := DeliverAll(net, tr, a, q, net.Correct());
    TraceInvents(net, tr, a);
    states, steps := tr.states, tr.steps;
  }

  /** One faulty oracle is enough: it attests any observations of ledger members all by itself, for any
      round, and every correct oracle transmits them. */
  lemma OneOracleInvents(net: Network, q: PeerId, observations: seq<Observation>, epoch: nat, round: nat)
    returns (a: AttestedReport, states: seq<System>, steps: seq<Step>)
    requires net.Valid() && q in net.faulty && q in PeerIds(net.ledger) && round <= ROUND_MAX + 1
    requires forall ob :: ob in observations ==> ob.oracle in PeerIds(net.ledger)
    ensures a.observations == observations && a.epoch == epoch && a.round == round
    ensures Signers(a.signatures) == {InfoOf(net, q).address}
    ensures Invented(net, states, steps, a)
    ensures forall p :: p in net.Correct() ==>
      exists i :: 0 <= i < |steps| && TransmitsAt(states[i], steps[i], InstanceId(p, epoch), a)
  {
    var info := InfoOf(net, q);
    a := SelfAttested(net.ledger, info, observations, epoch, round, net.aggregator);
    SelfAttestedAccepted(net.ledger, info, observations, epoch, round, net.aggregator);
    LookupsAgree(net.ledger, info);
    states, steps := InventedTransmits(net, a);
  }

  /** A correct oracle can transmit a report that no correct oracle signed exactly if the report is well
      attested for some round and all its signers are faulty. */
  lemma InventedExactly(net: Network, a: AttestedReport)
    requires net.Valid()
    ensures
      (exists states, steps :: Invented(net, states, steps, a)) <==>
      AttestedOk(net.aggregator, net.ledger, a) && InRange(a) && SignersFaulty(net, a)
  {
    if states, steps :| Invented(net, states, steps, a) {
      InventedNeedsFaulty(net, states, steps, a);
    }
    if Acceptable(net, a) {
      var states, steps := InventedTransmits(net, a);
    }
  }

  // ----- The condition a receiver can check -----

  ghost predicate CanBeInvented(net: Network, a: AttestedReport)
    requires net.Valid()
  {
    exists states, steps :: Invented(net, states, steps, a)
  }

  ghost function PeersOf(ledger: seq<OracleInfo>, addresses: set<Address>): set<PeerId> {
    set address | address in addresses && FindByAddress(ledger, address).Some? :: FindByAddress(ledger, address).value.peerId
  }

  lemma {:induction false} FewPeers(ledger: seq<OracleInfo>, addresses: set<Address>)
    ensures |PeersOf(ledger, addresses)| <= |addresses|
  {
    if addresses != {} {
      var address :| address in addresses;
      FewPeers(ledger, addresses - {address});
      if FindByAddress(ledger, address).Some? {
        assert PeersOf(ledger, addresses) ==
               PeersOf(ledger, addresses - {address}) + {FindByAddress(ledger, address).value.peerId};
      } else {
        assert PeersOf(ledger, addresses) == PeersOf(ledger, addresses - {address});
      }
    }
  }

  lemma ManySigners(net: Network, a: AttestedReport)
    requires net.Valid() && SignersFaulty(net, a)
    ensures |Signers(a.signatures)| <= FaultBound(net.ledger)
  {
    forall address | address in Signers(a.signatures) ensures address in AddressesOf(net, net.faulty) {
      var s :| s in a.signatures && s.oracle == address;
      var info := FindByAddress(net.ledger, address).value;
      LookupsAgree(net.ledger, info);
    }
    FewAddresses(net, net.faulty);
    SubsetSize(Signers(a.signatures), AddressesOf(net, net.faulty));
  }

  /** Whichever f or fewer oracles are faulty, an accepted report of a running round cannot be invented,
      exactly if its signatures name more than f distinct oracles. The code counts signatures instead. */
  lemma SafeExactly(ledger: seq<OracleInfo>, aggregator: Address, a: AttestedReport)
    requires ValidLedger(ledger) && AttestedOk(aggregator, ledger, a) && InRange(a)
    ensures
      (forall faulty: set<PeerId> :: |faulty| <= FaultBound(ledger) ==>
         !CanBeInvented(Network(ledger, faulty, aggregator), a)) <==>
      |Signers(a.signatures)| > FaultBound(ledger)
  {
    if |Signers(a.signatures)| > FaultBound(ledger) {
      forall faulty: set<PeerId> | |faulty| <= FaultBound(ledger)
        ensures !CanBeInvented(Network(ledger, faulty, aggregator), a)
      {
        var net := Network(ledger, faulty, aggregator);
        InventedExactly(net, a);
        if SignersFaulty(net, a) {
          ManySigners(net, a);
        }
      }
    } else {
      var faulty := PeersOf(ledger, Signers(a.signatures));
      FewPeers(ledger, Signers(a.signatures));
      var net := Network(ledger, faulty, aggregator);
      forall s | s in a.signatures
        ensures FindByAddress(ledger, s.oracle).Some? && FindByAddress(ledger, s.oracle).value.peerId in faulty
      {
        var info := SignerOf(net, a, s);
        assert s.oracle in Signers(a.signatures);
      }
      InventedExactly(net, a);
      assert CanBeInvented(net, a);
    }
  }
}
