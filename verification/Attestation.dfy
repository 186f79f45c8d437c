/** The final report a leader broadcasts attests the one report it asked the followers to sign. */
module Attestation {
  import opened Options
  import opened Ledger
  import opened Networks
  import opened Reports
  import opened Contract
  import opened Follower
  import opened Leader
  import opened ReportSystem

  // ----- Invariant -----

  ghost predicate Requested(s: LeaderState) {
    s.phase == Some(ReportPhase) || s.phase == Some(FinalPhase)
  }

  /** The only request sent for the current round is the report assembled in it. */
  ghost predicate RequestsOk(sent: set<Message>, id: InstanceId, n: LeaderNode) {
    && (Requested(n.state) ==> ReportReqSent(id.oracle, AssembleReport(n.config, n.state)) in sent)
    && forall report :: ReportReqSent(id.oracle, report) in sent && report.epoch == id.epoch ==>
      RequestOk(n, report)
  }

  ghost predicate RequestOk(n: LeaderNode, report: Report) {
    && report.round <= n.state.round
    && (report.round == n.state.round ==> Requested(n.state) && report == AssembleReport(n.config, n.state))
  }

  /** Every collected report of a correct oracle was really sent by it to this leader. */
  ghost predicate EntriesReal(net: Network, sent: set<Message>, id: InstanceId, report: seq<ReportEntry>) {
    forall entry :: entry in report && entry.from in net.Correct() ==>
      ReportSent(entry.from, id.oracle, entry.compressed, entry.signature) in sent
  }

  ghost predicate LeaderOk(net: Network, sent: set<Message>, id: InstanceId, n: LeaderNode)
    requires net.Valid()
  {
    && ConfigOk(net, id, n.config) && n.config.leader == id.oracle
    && PhaseInv(n.config, n.state)
    && EntriesReal(net, sent, id, n.state.report)
    && RequestsOk(sent, id, n)
  }

  ghost function SignatureBy(net: Network, p: PeerId, c: CompressedReport): Signature
    requires p in PeerIds(net.ledger)
  {
    Signature(InfoOf(net, p).address,
              SignatureOf(InfoOf(net, p).publicKey, net.ledger, c.observations, c.epoch, c.round, net.aggregator))
  }

  /** A sent report answers a request its addressee really sent, if the addressee is correct. */
  ghost predicate AnswerOk(net: Network, sent: set<Message>, p: PeerId, to: PeerId, c: CompressedReport,
                           signature: Signature) {
    && p in net.Correct() && signature == SignatureBy(net, p, c)
    && exists report :: c == Compress(report) && (to in net.Correct() ==> ReportReqSent(to, report) in sent)
  }

  ghost predicate SentOk(net: Network, sent: set<Message>, leaders: map<InstanceId, LeaderNode>, m: Message) {
    match m
    case ReportReqSent(p, report) => 0 <= report.epoch && InstanceId(p, report.epoch) in leaders
    case ReportSent(p, to, c, signature) => AnswerOk(net, sent, p, to, c, signature)
    case _ => true
  }

  ghost predicate UniqueRequests(sent: set<Message>) {
    forall p, a, b :: ReportReqSent(p, a) in sent && ReportReqSent(p, b) in sent && a.epoch == b.epoch && a.round == b.round ==>
      a == b
  }

  ghost predicate FollowersOk(net: Network, s: System)
    requires net.Valid()
  {
    forall id :: id in s.followers ==> ConfigOk(net, id, s.followers[id].config)
  }

  ghost predicate LeadersOk(net: Network, s: System)
    requires net.Valid()
  {
    forall id :: id in s.leaders ==> LeaderOk(net, s.sent, id, s.leaders[id])
  }

  ghost predicate MessagesOk(net: Network, s: System) {
    forall m :: m in s.sent ==> SentOk(net, s.sent, s.leaders, m)
  }

  ghost predicate AttestInv(net: Network, s: System)
    requires net.Valid()
  {
    && FollowersOk(net, s) && LeadersOk(net, s) && MessagesOk(net, s) && UniqueRequests(s.sent)
    && s.leaders.Keys <= s.followers.Keys
  }

  // ----- Growth of the message set -----

  ghost predicate NoNewRequests(sent: set<Message>, sent': set<Message>) {
    sent <= sent' && forall p, report :: ReportReqSent(p, report) in sent' ==> ReportReqSent(p, report) in sent
  }

  lemma GrowKeepsAnswer(net: Network, sent: set<Message>, sent': set<Message>, p: PeerId, to: PeerId,
                        c: CompressedReport, signature: Signature)
    requires AnswerOk(net, sent, p, to, c, signature) && sent <= sent'
    ensures AnswerOk(net, sent', p, to, c, signature)
  {
    var report :| c == Compress(report) && (to in net.Correct() ==> ReportReqSent(to, report) in sent);
    assert c == Compress(report) && (to in net.Correct() ==> ReportReqSent(to, report) in sent');
  }

  lemma GrowKeepsSent(net: Network, sent: set<Message>, sent': set<Message>, leaders: map<InstanceId, LeaderNode>,
                      leaders': map<InstanceId, LeaderNode>, m: Message)
    requires SentOk(net, sent, leaders, m) && sent <= sent' && leaders.Keys <= leaders'.Keys
    ensures SentOk(net, sent', leaders', m)
  {
    if m.ReportSent? {
      GrowKeepsAnswer(net, sent, sent', m.from, m.to, m.compressed, m.signature);
    }
  }

  lemma QuietKeepsLeader(net: Network, sent: set<Message>, sent': set<Message>, id: InstanceId, n: LeaderNode)
    requires net.Valid() && LeaderOk(net, sent, id, n) && NoNewRequests(sent, sent')
    ensures LeaderOk(net, sent', id, n)
  {
  }

  // ----- Follower steps -----

  /** A follower signs and sends exactly the request it got from its leader. */
  lemma ReportAnswersRequest(c: Config, s: FollowerState, input: FollowerInput, to: PeerId,
                             compressed: CompressedReport, signature: Signature)
    requires ValidLedger(c.ledger) && SendReport(to, compressed, signature) in React(c, s, input).out
    ensures input.ReportReq? && to == input.from && input.aggregator == c.aggregator
    ensures compressed == Compress(input.report) && signature == OwnSignature(c, compressed)
  {
  }

  lemma FollowerMessageOk(net: Network, s: System, id: InstanceId, input: FollowerInput, m: Message)
    requires net.Valid() && AttestInv(net, s) && id in s.followers && FollowerAuthentic(net, s.sent, input)
    requires m in FollowerMessages(id.oracle, React(s.followers[id].config, s.followers[id].state, input).out)
    ensures !m.ReportReqSent? && SentOk(net, s.sent, s.leaders, m)
  {
    var n := s.followers[id];
    assert ConfigOk(net, id, n.config);
    if m.ReportSent? {
      ReportAnswersRequest(n.config, n.state, input, m.to, m.compressed, m.signature);
      assert m.compressed == Compress(input.report);
    }
  }

  lemma NewMessagesOk(net: Network, s: System, t: System)
    requires MessagesOk(net, s) && s.sent <= t.sent && s.leaders.Keys <= t.leaders.Keys
    requires forall m :: m in t.sent && m !in s.sent ==> SentOk(net, s.sent, s.leaders, m)
    ensures MessagesOk(net, t)
  {
    forall m | m in t.sent ensures SentOk(net, t.sent, t.leaders, m) {
      assert SentOk(net, s.sent, s.leaders, m);
      GrowKeepsSent(net, s.sent, t.sent, s.leaders, t.leaders, m);
    }
  }

  lemma QuietKeepsLeaders(net: Network, s: System, t: System)
    requires net.Valid() && LeadersOk(net, s) && t.leaders == s.leaders && NoNewRequests(s.sent, t.sent)
    ensures LeadersOk(net, t)
  {
    forall i | i in t.leaders ensures LeaderOk(net, t.sent, i, t.leaders[i]) {
      QuietKeepsLeader(net, s.sent, t.sent, i, s.leaders[i]);
    }
  }

  /** A step that changes no leader and sends no request. */
  lemma QuietStepKeepsAttest(net: Network, s: System, t: System)
    requires net.Valid() && AttestInv(net, s) && t.leaders == s.leaders && s.sent <= t.sent
    requires s.followers.Keys <= t.followers.Keys && FollowersOk(net, t)
    requires forall m :: m in t.sent && m !in s.sent ==> !m.ReportReqSent? && SentOk(net, s.sent, s.leaders, m)
    ensures AttestInv(net, t)
  {
    assert NoNewRequests(s.sent, t.sent);
    NewMessagesOk(net, s, t);
    QuietKeepsLeaders(net, s, t);
  }

  lemma UpdateKeepsFollowers(net: Network, s: System, t: System, id: InstanceId, n: FollowerNode)
    requires net.Valid() && FollowersOk(net, s) && id in s.followers && n.config == s.followers[id].config
    requires t.followers == s.followers[id := n]
    ensures FollowersOk(net, t)
  {
    assert ConfigOk(net, id, s.followers[id].config);
  }

  lemma FollowerKeepsAttest(net: Network, s: System, id: InstanceId, input: FollowerInput)
    requires net.Valid() && AttestInv(net, s) && id in s.followers && FollowerAuthentic(net, s.sent, input)
    ensures AttestInv(net, FollowerApplied(s, id, input, React(s.followers[id].config, s.followers[id].state, input)))
  {
    var r := React(s.followers[id].config, s.followers[id].state, input);
    var t := FollowerApplied(s, id, input, r);
    forall m | m in t.sent && m !in s.sent ensures !m.ReportReqSent? && SentOk(net, s.sent, s.leaders, m) {
      FollowerMessageOk(net, s, id, input, m);
    }
    UpdateKeepsFollowers(net, s, t, id, Advance(s.followers[id], input, r));
    QuietStepKeepsAttest(net, s, t);
  }

  // ----- Leader steps -----

  /** A request is sent exactly when the grace phase ends; it is the assembled report. */
  lemma RequestIsAssembled(c: Config, s: LeaderState, input: LeaderInput, report: Report)
    requires BroadcastReportReq(report) in LeaderReact(c, s, input).out
    ensures s.phase == Some(Grace) && report == AssembleReport(c, s)
    ensures LeaderReact(c, s, input).state == s.(phase := Some(ReportPhase))
  {
  }

  lemma RequestSent(c: Config, s: LeaderState, input: LeaderInput)
    requires PhaseInv(c, s)
    ensures
      var r := LeaderReact(c, s, input);
      Requested(r.state) && !Requested(s) ==> BroadcastReportReq(AssembleReport(c, r.state)) in r.out
  {
  }

  lemma LeaderEntries(c: Config, s: LeaderState, input: LeaderInput, entry: ReportEntry)
    requires entry in LeaderReact(c, s, input).state.report && entry !in s.report
    ensures input.ReportMsg? && input.aggregator == c.aggregator && input.from in PeerIds(c.ledger)
    ensures entry == ReportEntry(input.from, input.compressed, input.reportSignature)
  {
  }

  lemma LeaderStepRequests(sent: set<Message>, sent': set<Message>, id: InstanceId, n: LeaderNode, input: LeaderInput)
    requires PhaseInv(n.config, n.state) && RequestsOk(sent, id, n) && n.config.epoch == id.epoch
    requires sent' == sent + LeaderMessages(id.oracle, LeaderReact(n.config, n.state, input).out)
    ensures RequestsOk(sent', id, n.(state := LeaderReact(n.config, n.state, input).state))
  {
    var r := LeaderReact(n.config, n.state, input);
    var after := n.(state := r.state);
    LeaderReactAdvances(n.config, n.state, input);
    RequestSent(n.config, n.state, input);
    forall report | ReportReqSent(id.oracle, report) in sent' && report.epoch == id.epoch
      ensures RequestOk(after, report)
    {
      if ReportReqSent(id.oracle, report) in sent {
        assert RequestOk(n, report);
      } else {
        RequestIsAssembled(n.config, n.state, input, report);
      }
    }
  }

  /** The requests among added messages: at most the report assembled by this leader in its grace phase. */
  ghost predicate OnlyOwnRequest(id: InstanceId, n: LeaderNode, added: set<Message>) {
    forall p, report :: ReportReqSent(p, report) in added ==>
      p == id.oracle && n.state.phase == Some(Grace) && report == AssembleReport(n.config, n.state)
  }

  lemma LeaderAddsOwnRequest(id: InstanceId, n: LeaderNode, input: LeaderInput)
    ensures
      var added := LeaderMessages(id.oracle, LeaderReact(n.config, n.state, input).out);
      OnlyOwnRequest(id, n, added) && forall m :: m in added ==> m.ObserveReqSent? || m.ReportReqSent? || m.FinalSent?
  {
    var out := LeaderReact(n.config, n.state, input).out;
    forall p, report | ReportReqSent(p, report) in LeaderMessages(id.oracle, out)
      ensures p == id.oracle && n.state.phase == Some(Grace) && report == AssembleReport(n.config, n.state)
    {
      RequestIsAssembled(n.config, n.state, input, report);
    }
  }

  lemma LeaderStepOk(net: Network, sent: set<Message>, id: InstanceId, n: LeaderNode, input: LeaderInput)
    requires net.Valid() && LeaderOk(net, sent, id, n) && LeaderAuthentic(net, sent, id.oracle, input)
    ensures
      var r := LeaderReact(n.config, n.state, input);
      LeaderOk(net, sent + LeaderMessages(id.oracle, r.out), id, n.(state := r.state))
  {
    var r := LeaderReact(n.config, n.state, input);
    var sent' := sent + LeaderMessages(id.oracle, r.out);
    LeaderReactKeepsInv(n.config, n.state, input);
    LeaderStepRequests(sent, sent', id, n, input);
    forall entry | entry in r.state.report && entry.from in net.Correct()
      ensures ReportSent(entry.from, id.oracle, entry.compressed, entry.signature) in sent'
    {
      if entry !in n.state.report {
        LeaderEntries(n.config, n.state, input, entry);
      }
    }
  }

  lemma OtherLeaderOk(net: Network, sent: set<Message>, added: set<Message>, id: InstanceId, n: LeaderNode,
                      other: InstanceId, m: LeaderNode)
    requires net.Valid() && LeaderOk(net, sent, other, m) && other != id
    requires n.config.epoch == id.epoch && OnlyOwnRequest(id, n, added)
    ensures LeaderOk(net, sent + added, other, m)
  {
    forall report | ReportReqSent(other.oracle, report) in sent + added && report.epoch == other.epoch
      ensures RequestOk(m, report)
    {
      assert ReportReqSent(other.oracle, report) in sent;
    }
  }

  lemma OwnRequestUnique(sent: set<Message>, added: set<Message>, id: InstanceId, n: LeaderNode)
    requires UniqueRequests(sent) && RequestsOk(sent, id, n) && n.config.epoch == id.epoch
    requires OnlyOwnRequest(id, n, added)
    ensures UniqueRequests(sent + added)
  {
    forall p, a, b | ReportReqSent(p, a) in sent + added && ReportReqSent(p, b) in sent + added
                     && a.epoch == b.epoch && a.round == b.round
      ensures a == b
    {
      if a.epoch == id.epoch && p == id.oracle {
        assert ReportReqSent(p, a) in sent ==> RequestOk(n, a);
        assert ReportReqSent(p, b) in sent ==> RequestOk(n, b);
      }
    }
  }

  lemma LeaderStepKeepsLeaders(net: Network, s: System, t: System, id: InstanceId, after: LeaderNode,
                               added: set<Message>)
    requires net.Valid() && LeadersOk(net, s) && id in s.leaders && s.leaders[id].config.epoch == id.epoch
    requires LeaderOk(net, s.sent + added, id, after) && OnlyOwnRequest(id, s.leaders[id], added)
    requires t.leaders == s.leaders[id := after] && t.sent == s.sent + added
    ensures LeadersOk(net, t)
  {
    forall i | i in t.leaders && i != id ensures LeaderOk(net, t.sent, i, t.leaders[i]) {
      LeaderOkAt(net, s, i);
      OtherLeaderOk(net, s.sent, added, id, s.leaders[id], i, s.leaders[i]);
    }
  }

  lemma LeaderOkAt(net: Network, s: System, id: InstanceId)
    requires net.Valid() && LeadersOk(net, s) && id in s.leaders
    ensures LeaderOk(net, s.sent, id, s.leaders[id])
  {
  }

  lemma LeaderStepKeepsAttest(net: Network, s: System, id: InstanceId, after: LeaderNode, added: set<Message>)
    requires net.Valid() && AttestInv(net, s) && id in s.leaders
    requires LeaderOk(net, s.sent + added, id, after) && OnlyOwnRequest(id, s.leaders[id], added)
    requires forall m :: m in added ==> m.ObserveReqSent? || m.ReportReqSent? || m.FinalSent?
    ensures AttestInv(net, System(s.followers, s.leaders[id := after], s.sent + added))
  {
    var t := System(s.followers, s.leaders[id := after], s.sent + added);
    var n := s.leaders[id];
    assert n.config.epoch == id.epoch && RequestsOk(s.sent, id, n) by {
      assert LeaderOk(net, s.sent, id, n);
    }
    OwnRequestUnique(s.sent, added, id, n);
    LeaderStepKeepsLeaders(net, s, t, id, after, added);
    forall m | m in t.sent && m !in s.sent ensures SentOk(net, s.sent, s.leaders, m) {
      if m.ReportReqSent? {
        assert ReportReqSent(m.from, m.report) in added;
      }
    }
    NewMessagesOk(net, s, t);
  }

  lemma LeaderKeepsAttest(net: Network, s: System, id: InstanceId, input: LeaderInput)
    requires net.Valid() && AttestInv(net, s) && id in s.leaders && LeaderAuthentic(net, s.sent, id.oracle, input)
    ensures AttestInv(net, LeaderApplied(s, id, LeaderReact(s.leaders[id].config, s.leaders[id].state, input)))
  {
    var n := s.leaders[id];
    assert LeaderOk(net, s.sent, id, n);
    var r := LeaderReact(n.config, n.state, input);
    LeaderStepOk(net, s.sent, id, n, input);
    LeaderAddsOwnRequest(id, n, input);
    LeaderStepKeepsAttest(net, s, id, n.(state := r.state), LeaderMessages(id.oracle, r.out));
  }

  // ----- Runs -----

  lemma FreshLeaderOk(net: Network, sent: set<Message>, leaders: map<InstanceId, LeaderNode>, id: InstanceId, c: Config)
    requires net.Valid() && ConfigOk(net, id, c) && c.leader == id.oracle && id !in leaders
    requires forall m :: m in sent ==> SentOk(net, sent, leaders, m)
    ensures LeaderOk(net, sent, id, LeaderNode(c, LEADER_INITIAL))
  {
    forall report | ReportReqSent(id.oracle, report) in sent ensures report.epoch != id.epoch {
      assert SentOk(net, sent, leaders, ReportReqSent(id.oracle, report));
    }
  }

  lemma StartKeepsAttest(net: Network, s: System, id: InstanceId, heartbeat: int, alpha: real)
    requires net.Valid() && AttestInv(net, s) && id.oracle in net.Correct() && id !in s.followers
    ensures AttestInv(net, Started(net, s, id, heartbeat, alpha))
  {
    var t := Started(net, s, id, heartbeat, alpha);
    assert id !in s.leaders;
    FreshLeaders(net, s, id, heartbeat, alpha);
    NewMessagesOk(net, s, t);
  }

  lemma FreshLeaders(net: Network, s: System, id: InstanceId, heartbeat: int, alpha: real)
    requires net.Valid() && AttestInv(net, s) && id.oracle in net.Correct() && id !in s.followers && id !in s.leaders
    ensures
      LeadersOk(net, Started(net, s, id, heartbeat, alpha))
  {
    var c := ConfigFor(net, id, heartbeat, alpha);
    if c.leader == id.oracle {
      FreshLeaderOk(net, s.sent, s.leaders, id, c);
      AddLeader(net, s, Started(net, s, id, heartbeat, alpha), id, LeaderNode(c, LEADER_INITIAL));
    }
  }

  lemma AddLeader(net: Network, s: System, t: System, id: InstanceId, n: LeaderNode)
    requires net.Valid() && LeadersOk(net, s) && LeaderOk(net, s.sent, id, n)
    requires t.sent == s.sent && t.leaders == s.leaders[id := n]
    ensures LeadersOk(net, t)
  {
  }

  lemma NextKeepsAttest(net: Network, s: System, t: System, step: Step)
    requires net.Valid() && AttestInv(net, s) && Next(net, s, t, step)
    ensures AttestInv(net, t)
  {
    match step
    case StartInstance(id, heartbeat, alpha) => StartKeepsAttest(net, s, id, heartbeat, alpha);
    case FollowerStep(id, input) => FollowerKeepsAttest(net, s, id, input);
    case LeaderStep(id, input) => LeaderKeepsAttest(net, s, id, input);
  }

  lemma {:induction false} RunKeepsAttest(net: Network, states: seq<System>, steps: seq<Step>, k: nat)
    requires net.Valid() && IsRun(net, states, steps) && k < |states|
    ensures AttestInv(net, states[k])
  {
    if k > 0 {
      RunKeepsAttest(net, states, steps, k - 1);
      NextKeepsAttest(net, states[k - 1], states[k], steps[k - 1]);
    }
  }

  // ----- What a sent report rests on -----

  lemma ReportSource(net: Network, s: System, t: System, step: Step, p: PeerId, to: PeerId, c: CompressedReport, signature: Signature)
    requires net.Valid() && FollowersOk(net, s) && Next(net, s, t, step)
    requires ReportSent(p, to, c, signature) in t.sent && ReportSent(p, to, c, signature) !in s.sent
    ensures step.FollowerStep? && step.id.oracle == p && step.followerInput.ReportReq?
    ensures step.followerInput.from == to == LeaderForEpoch(net.ledger, step.id.epoch)
    ensures c == Compress(step.followerInput.report) && Checked(net.ledger, step.followerInput.report)
  {
    SourceStep(net, s, t, step, p, to, c, signature);
    var n := s.followers[step.id];
    assert ConfigOk(net, step.id, n.config);
    ReportAnswersRequest(n.config, n.state, step.followerInput, to, c, signature);
    ReportReqExactly(n.config, n.state, step.followerInput);
  }

  lemma SourceStep(net: Network, s: System, t: System, step: Step, p: PeerId, to: PeerId, c: CompressedReport, signature: Signature)
    requires net.Valid() && Next(net, s, t, step)
    requires ReportSent(p, to, c, signature) in t.sent && ReportSent(p, to, c, signature) !in s.sent
    ensures step.FollowerStep? && step.id.oracle == p && step.id in s.followers
    ensures ValidLedger(s.followers[step.id].config.ledger)
    ensures SendReport(to, c, signature) in
            React(s.followers[step.id].config, s.followers[step.id].state, step.followerInput).out
  {
  }

  /** In every run, behind a report signed by a correct oracle is a step in which it got this report, as a
      request of that epoch's leader, with at least 2f + 1 different oracles and every observation
      signed by the oracle it names. */
  lemma {:induction false} SignedReportWasChecked(net: Network, states: seq<System>, steps: seq<Step>, k: nat,
                                                  p: PeerId, to: PeerId, c: CompressedReport, signature: Signature)
    returns (i: nat)
    requires net.Valid() && IsRun(net, states, steps) && k < |states| && ReportSent(p, to, c, signature) in states[k].sent
    ensures i < k && steps[i].FollowerStep? && steps[i].id.oracle == p && steps[i].followerInput.ReportReq?
    ensures steps[i].followerInput.from == to == LeaderForEpoch(net.ledger, steps[i].id.epoch)
    ensures c == Compress(steps[i].followerInput.report) && Checked(net.ledger, steps[i].followerInput.report)
    ensures to in net.Correct() ==> ReportReqSent(to, steps[i].followerInput.report) in states[i].sent
  {
    assert k > 0;
    if ReportSent(p, to, c, signature) in states[k - 1].sent {
      i := SignedReportWasChecked(net, states, steps, k - 1, p, to, c, signature);
    } else {
      i := k - 1;
      assert Next(net, states[i], states[k], steps[i]);
      RunKeepsAttest(net, states, steps, i);
      ReportSource(net, states[i], states[k], steps[i], p, to, c, signature);
      RequestWasSent(net, states[i], states[k], steps[i], p, to, c, signature);
    }
  }

  lemma RequestWasSent(net: Network, s: System, t: System, step: Step, p: PeerId, to: PeerId, c: CompressedReport, signature: Signature)
    requires net.Valid() && FollowersOk(net, s) && Next(net, s, t, step)
    requires ReportSent(p, to, c, signature) in t.sent && ReportSent(p, to, c, signature) !in s.sent
    requires step.FollowerStep? && step.followerInput.ReportReq? && step.followerInput.from == to
    ensures to in net.Correct() ==> ReportReqSent(to, step.followerInput.report) in s.sent
  {
    SourceStep(net, s, t, step, p, to, c, signature);
    var n := s.followers[step.id];
    assert ConfigOk(net, step.id, n.config);
    ReportAnswersRequest(n.config, n.state, step.followerInput, to, c, signature);
  }

  // ----- What a final attests -----

  /** The attested report carries the observations of the request sent for its epoch and round, f + 1
      signatures by distinct oracles, and every oracle accepts it. */
  ghost predicate Attests(net: Network, sent: set<Message>, leader: PeerId, a: AttestedReport, report: Report) {
    && ReportReqSent(leader, report) in sent && report.epoch == a.epoch && report.round == a.round
    && a.observations == StripSignatures(report.observations)
    && |a.signatures| == FaultBound(net.ledger) + 1 && DistinctSigners(a.signatures)
    && AttestedOk(net.aggregator, net.ledger, a)
  }

  /** `report` is the one request the leader has sent for the epoch and round of `a`. */
  ghost predicate OnlyRequest(sent: set<Message>, leader: PeerId, a: AttestedReport, report: Report) {
    && ReportReqSent(leader, report) in sent && report.epoch == a.epoch && report.round == a.round
    && forall other :: ReportReqSent(leader, other) in sent && other.epoch == a.epoch && other.round == a.round ==>
      other == report
  }

  /** In this step the leader broadcasts the final `a`. */
  ghost predicate Broadcasts(s: System, step: Step, leader: PeerId, a: AttestedReport) {
    && step.LeaderStep? && step.id in s.leaders && step.id.oracle == leader
    && BroadcastFinal(a) in LeaderReact(s.leaders[step.id].config, s.leaders[step.id].state, step.leaderInput).out
  }

  /** The reports the leader has collected when it broadcasts its final in this step. */
  ghost function Behind(s: System, step: Step): seq<ReportEntry>
    requires step.LeaderStep? && step.id in s.leaders
  {
    LeaderReact(s.leaders[step.id].config, s.leaders[step.id].state, step.leaderInput).state.report
  }

  ghost function CompressedPayload(net: Network, c: CompressedReport): Option<Payload> {
    PayloadOf(net.ledger, c.observations, c.epoch, c.round, net.aggregator)
  }

  ghost function FinalPayload(net: Network, a: AttestedReport): Option<Payload> {
    PayloadOf(net.ledger, a.observations, a.epoch, a.round, net.aggregator)
  }

  /** What a leader has collected from correct oracles is its own report, signed by each of them. */
  lemma CollectedIsOwnReport(net: Network, s: System, id: InstanceId, entry: ReportEntry)
    requires net.Valid() && AttestInv(net, s) && id in s.leaders
    requires entry in s.leaders[id].state.report && entry.from in net.Correct()
    ensures entry.compressed == Compress(AssembleReport(s.leaders[id].config, s.leaders[id].state))
    ensures entry.signature == SignatureBy(net, entry.from, entry.compressed)
  {
    var n := s.leaders[id];
    assert LeaderOk(net, s.sent, id, n);
    var m := ReportSent(entry.from, id.oracle, entry.compressed, entry.signature);
    assert m in s.sent;
    assert SentOk(net, s.sent, s.leaders, m);
    assert ReportsOk(n.config, n.state.round, n.state.report);
    AnswerIsOwn(net, s.sent, id, n, entry);
  }

  lemma AnswerIsOwn(net: Network, sent: set<Message>, id: InstanceId, n: LeaderNode, entry: ReportEntry)
    requires AnswerOk(net, sent, entry.from, id.oracle, entry.compressed, entry.signature)
    requires id.oracle in net.Correct() && RequestsOk(sent, id, n)
    requires entry.compressed.epoch == id.epoch && entry.compressed.round == n.state.round
    ensures entry.compressed == Compress(AssembleReport(n.config, n.state))
  {
    var report :| entry.compressed == Compress(report) && ReportReqSent(id.oracle, report) in sent;
    assert RequestOk(n, report);
  }

  lemma SignersDistinct(net: Network, report: seq<ReportEntry>)
    requires net.Valid()
    requires forall i, j :: 0 <= i < j < |report| ==> report[i].from != report[j].from
    requires forall i :: 0 <= i < |report| ==>
      report[i].from in PeerIds(net.ledger) && report[i].signature.oracle == InfoOf(net, report[i].from).address
    ensures DistinctSigners(SignaturesOf(report))
  {
    forall i, j | 0 <= i < j < |report| ensures report[i].signature.oracle != report[j].signature.oracle {
      var a, b := InfoOf(net, report[i].from), InfoOf(net, report[j].from);
      LookupsAgree(net.ledger, a);
      LookupsAgree(net.ledger, b);
    }
  }

  lemma {:induction false} SendersCount(report: seq<ReportEntry>)
    requires forall i, j :: 0 <= i < j < |report| ==> report[i].from != report[j].from
    ensures |Senders(report)| == |report|
  {
    if report != [] {
      SendersCount(report[1..]);
      assert report == [report[0]] + report[1..];
      assert Senders(report) == Senders(report[1..]) + {report[0].from};
    }
  }

  /** Among the f + 1 reports behind a final is one of a correct oracle. */
  lemma CorrectEntry(net: Network, c: Config, s: LeaderState) returns (entry: ReportEntry)
    requires net.Valid() && c.ledger == net.ledger && ReportsOk(c, s.round, s.report)
    requires |s.report| == FaultBound(net.ledger) + 1
    ensures entry in s.report && entry.from in net.Correct()
  {
    SendersCount(s.report);
    var p := QuorumHasCorrect(Senders(s.report), net.faulty);
    entry :| entry in s.report && entry.from == p;
  }

  /** When one of the collected reports has payload `payload`, the final is accepted exactly when all of
      them have it, and then the final has it too. */
  lemma FinalPayloadExactly(net: Network, c: Config, s: LeaderState, input: LeaderInput, a: AttestedReport,
                            payload: Option<Payload>)
    requires net.Valid() && c.ledger == net.ledger && c.aggregator == net.aggregator && PhaseInv(c, s)
    requires BroadcastFinal(a) in LeaderReact(c, s, input).out
    requires exists entry :: entry in LeaderReact(c, s, input).state.report && CompressedPayload(net, entry.compressed) == payload
    ensures AttestedOk(net.aggregator, net.ledger, a) <==>
            forall entry :: entry in LeaderReact(c, s, input).state.report ==> CompressedPayload(net, entry.compressed) == payload
    ensures AttestedOk(net.aggregator, net.ledger, a) ==> FinalPayload(net, a) == payload
  {
    BroadcastsFinal(c, s, input, a);
    LeaderReactKeepsInv(c, s, input);
    FinalAcceptedExactly(c, s, input, a);
    var report := LeaderReact(c, s, input).state.report;
    var last := report[|report| - 1];
    assert last in report;
    assert FinalPayload(net, a) == CompressedPayload(net, last.compressed) by {
      assert last.compressed.epoch == a.epoch && last.compressed.round == a.round;
    }
    forall entry ensures EntryPayload(c, entry) == CompressedPayload(net, entry.compressed) {
    }
  }

  /** Reports of correct oracles only: they are one and the same, and their signers are distinct. */
  lemma CorrectEntriesAttest(net: Network, t: System, id: InstanceId, a: AttestedReport)
    requires net.Valid() && AttestInv(net, t) && id in t.leaders && Requested(t.leaders[id].state)
    requires forall entry :: entry in t.leaders[id].state.report ==> entry.from in net.Correct()
    requires AttestedOk(net.aggregator, net.ledger, a) && |a.signatures| == FaultBound(net.ledger) + 1
    requires t.leaders[id].state.report != [] && a.signatures == SignaturesOf(t.leaders[id].state.report)
    requires a.observations == t.leaders[id].state.report[|t.leaders[id].state.report| - 1].compressed.observations
    requires a.epoch == id.epoch && a.round == t.leaders[id].state.round
    ensures Attests(net, t.sent, id.oracle, a, AssembleReport(t.leaders[id].config, t.leaders[id].state))
  {
    var n := t.leaders[id];
    LeaderOkAt(net, t, id);
    forall i | 0 <= i < |n.state.report|
      ensures n.state.report[i].compressed == Compress(AssembleReport(n.config, n.state))
      ensures n.state.report[i].from in PeerIds(net.ledger)
      ensures n.state.report[i].signature.oracle == InfoOf(net, n.state.report[i].from).address
    {
      assert n.state.report[i] in n.state.report;
      CollectedIsOwnReport(net, t, id, n.state.report[i]);
    }
    SignersDistinct(net, n.state.report);
  }

  /** Only a leader step broadcasts a final. */
  lemma FinalSource(net: Network, s: System, t: System, step: Step, p: PeerId, a: AttestedReport)
    requires net.Valid() && Next(net, s, t, step)
    requires FinalSent(p, a) in t.sent && FinalSent(p, a) !in s.sent
    ensures Broadcasts(s, step, p, a)
  {
  }

  lemma {:induction false} FinalHasStep(net: Network, states: seq<System>, steps: seq<Step>, k: nat, leader: PeerId,
                                        a: AttestedReport)
    returns (j: nat)
    requires net.Valid() && IsRun(net, states, steps) && k < |states| && FinalSent(leader, a) in states[k].sent
    ensures j < k && Broadcasts(states[j], steps[j], leader, a)
  {
    assert k > 0;
    if FinalSent(leader, a) in states[k - 1].sent {
      j := FinalHasStep(net, states, steps, k - 1, leader, a);
    } else {
      j := k - 1;
      assert Next(net, states[j], states[k], steps[j]);
      FinalSource(net, states[j], states[k], steps[j], leader, a);
    }
  }

  lemma SentGrows(net: Network, s: System, t: System, step: Step)
    requires net.Valid() && Next(net, s, t, step)
    ensures s.sent <= t.sent
  {
  }

  lemma {:induction false} RunSentGrows(net: Network, states: seq<System>, steps: seq<Step>, j: nat, k: nat)
    requires net.Valid() && IsRun(net, states, steps) && j <= k < |states|
    ensures states[j].sent <= states[k].sent
  {
    if j < k {
      RunSentGrows(net, states, steps, j, k - 1);
      SentGrows(net, states[k - 1], states[k], steps[k - 1]);
    }
  }

  lemma BroadcastState(net: Network, s: System, t: System, step: Step, leader: PeerId, a: AttestedReport)
    requires net.Valid() && Next(net, s, t, step) && Broadcasts(s, step, leader, a)
    ensures step.id in t.leaders && t.leaders[step.id].config == s.leaders[step.id].config
    ensures t.leaders[step.id].state ==
            LeaderReact(s.leaders[step.id].config, s.leaders[step.id].state, step.leaderInput).state
  {
  }

  /** The report requested by a leader that has broadcast its final. */
  lemma RequestOfFinal(net: Network, t: System, id: InstanceId, a: AttestedReport) returns (report: Report)
    requires net.Valid() && AttestInv(net, t) && id in t.leaders
    requires t.leaders[id].state.phase == Some(FinalPhase) && IsFinalOf(t.leaders[id].config, t.leaders[id].state, a)
    ensures report == AssembleReport(t.leaders[id].config, t.leaders[id].state)
    ensures ReportReqSent(id.oracle, report) in t.sent && report.epoch == a.epoch == id.epoch && report.round == a.round
    ensures exists entry :: entry in t.leaders[id].state.report &&
              CompressedPayload(net, entry.compressed) == CompressedPayload(net, Compress(report))
  {
    LeaderOkAt(net, t, id);
    var n := t.leaders[id];
    report := AssembleReport(n.config, n.state);
    var entry := CorrectEntry(net, n.config, n.state);
    CollectedIsOwnReport(net, t, id, entry);
  }

  lemma CorrectOnlyAttest(net: Network, t: System, id: InstanceId, a: AttestedReport)
    requires net.Valid() && AttestInv(net, t) && id in t.leaders
    requires t.leaders[id].state.phase == Some(FinalPhase) && IsFinalOf(t.leaders[id].config, t.leaders[id].state, a)
    requires forall entry :: entry in t.leaders[id].state.report ==> entry.from !in net.faulty
    requires AttestedOk(net.aggregator, net.ledger, a)
    ensures Attests(net, t.sent, id.oracle, a, AssembleReport(t.leaders[id].config, t.leaders[id].state))
  {
    LeaderOkAt(net, t, id);
    assert ReportsOk(t.leaders[id].config, t.leaders[id].state.round, t.leaders[id].state.report);
    CorrectEntriesAttest(net, t, id, a);
  }

  lemma CorrectOnlyAgree(net: Network, t: System, id: InstanceId)
    requires net.Valid() && AttestInv(net, t) && id in t.leaders
    requires forall entry :: entry in t.leaders[id].state.report ==> entry.from !in net.faulty
    ensures forall entry :: entry in t.leaders[id].state.report ==>
      entry.compressed == Compress(AssembleReport(t.leaders[id].config, t.leaders[id].state))
  {
    LeaderOkAt(net, t, id);
    var n := t.leaders[id];
    assert ReportsOk(n.config, n.state.round, n.state.report);
    forall e | e in n.state.report ensures e.compressed == Compress(AssembleReport(n.config, n.state)) {
      CollectedIsOwnReport(net, t, id, e);
    }
  }

  /** What the step that broadcasts a final establishes, for the report its leader has requested. */
  lemma FreshFinal(net: Network, s: System, t: System, step: Step, leader: PeerId,
                   a: AttestedReport) returns (report: Report)
    requires net.Valid() && AttestInv(net, s) && AttestInv(net, t) && Next(net, s, t, step)
    requires Broadcasts(s, step, leader, a)
    ensures ReportReqSent(leader, report) in t.sent && report.epoch == a.epoch && report.round == a.round
    ensures |a.signatures| == FaultBound(net.ledger) + 1
    ensures AttestedOk(net.aggregator, net.ledger, a) <==>
            forall entry :: entry in Behind(s, step) ==>
              CompressedPayload(net, entry.compressed) == CompressedPayload(net, Compress(report))
    ensures AttestedOk(net.aggregator, net.ledger, a) ==>
            FinalPayload(net, a) == CompressedPayload(net, Compress(report))
    ensures (forall entry :: entry in Behind(s, step) ==> entry.from !in net.faulty) ==>
            Attests(net, t.sent, leader, a, report)
  {
    var id := step.id;
    var n := s.leaders[id];
    BroadcastState(net, s, t, step, leader, a);
    LeaderOkAt(net, s, id);
    BroadcastsFinal(n.config, n.state, step.leaderInput, a);
    report := RequestOfFinal(net, t, id, a);
    FinalPayloadExactly(net, n.config, n.state, step.leaderInput, a, CompressedPayload(net, Compress(report)));
    if forall e :: e in t.leaders[id].state.report ==> e.from !in net.faulty {
      CorrectOnlyAgree(net, t, id);
      CorrectOnlyAttest(net, t, id, a);
    }
  }

  /** In every run, whatever faulty oracles send and however messages interleave, behind each final is a
      step in which its leader broadcast it, having sent exactly one report request for that epoch and
      round, and having collected f + 1 reports. Every oracle accepts the final exactly when all of
      these have the payload of that request, and then the final has that very payload. When none of
      the f + 1 comes from a faulty oracle, the final is accepted, carries the observations of the
      request, and its f + 1 signatures are by distinct oracles. */
  lemma FinalAttestsItsRequest(net: Network, states: seq<System>, steps: seq<Step>, k: nat, leader: PeerId,
                               a: AttestedReport)
    returns (j: nat, report: Report)
    requires net.Valid() && IsRun(net, states, steps) && k < |states|
    requires FinalSent(leader, a) in states[k].sent
    ensures j < k && Broadcasts(states[j], steps[j], leader, a)
    ensures OnlyRequest(states[k].sent, leader, a, report)
    ensures |a.signatures| == FaultBound(net.ledger) + 1
    ensures AttestedOk(net.aggregator, net.ledger, a) <==>
            forall entry :: entry in Behind(states[j], steps[j]) ==>
              CompressedPayload(net, entry.compressed) == CompressedPayload(net, Compress(report))
    ensures AttestedOk(net.aggregator, net.ledger, a) ==>
            FinalPayload(net, a) == CompressedPayload(net, Compress(report))
    ensures (forall entry :: entry in Behind(states[j], steps[j]) ==> entry.from !in net.faulty) ==>
            Attests(net, states[k].sent, leader, a, report)
  {
    j := FinalHasStep(net, states, steps, k, leader, a);
    RunKeepsAttest(net, states, steps, j);
    RunKeepsAttest(net, states, steps, j + 1);
    RunKeepsAttest(net, states, steps, k);
    report := FreshFinal(net, states[j], states[j + 1], steps[j], leader, a);
    RunSentGrows(net, states, steps, j + 1, k);
  }
}
