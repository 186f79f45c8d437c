/** A whole round between a correct leader and correct followers: what each handler emits is delivered to
    the others, and in the end every follower transmits. */
module Rounds {
  import opened Options
  import opened Ledger
  import opened Reports
  import opened Contract
  import opened Follower
  import opened Leader
  import opened Exchange

  /** A follower before the round: its state, the price it will fetch, and the chain and time it will see. */
  datatype Party = Party(info: OracleInfo, state: FollowerState, data: real, last: Option<ChainReport>, now: int)

  function Own(c: Config, x: Party): Config {
    c.(me := x.info)
  }

  function Infos(parties: seq<Party>): (infos: seq<OracleInfo>)
    ensures |infos| == |parties| && forall i :: 0 <= i < |infos| ==> infos[i] == parties[i].info
  {
    seq(|parties|, i requires 0 <= i < |parties| => parties[i].info)
  }

  function Prices(parties: seq<Party>): (data: seq<real>)
    ensures |data| == |parties| && forall i :: 0 <= i < |data| ==> data[i] == parties[i].data
  {
    seq(|parties|, i requires 0 <= i < |parties| => parties[i].data)
  }

  // ----- Delivery -----

  /** The messages for the leader among a follower's outputs. */
  function ToLeader(c: Config, from: PeerId, out: seq<FollowerOut>): seq<LeaderInput> {
    if out == [] then []
    else
      ToLeader(c, from, out[..|out| - 1]) +
      match out[|out| - 1]
      case SendObserve(to, epoch, round, data, signature) =>
        if to == c.leader then [ObserveMsg(from, c.aggregator, epoch, round, data, signature, true)] else []
      case SendReport(to, compressed, signature) =>
        if to == c.leader then [ReportMsg(from, c.aggregator, compressed, signature)] else []
      case _ => []
  }

  /** The echoes among a follower's outputs. */
  function Echoes(c: Config, from: PeerId, out: seq<FollowerOut>): seq<FollowerInput> {
    if out == [] then []
    else
      Echoes(c, from, out[..|out| - 1]) +
      match out[|out| - 1]
      case BroadcastFinalEcho(attested) => [FinalEcho(from, c.aggregator, attested)]
      case _ => []
  }

  // ----- One follower through the round -----

  /** After the leader's observation request. */
  function Asked(c: Config, x: Party, round: int): FollowerResult
    requires ValidLedger(c.ledger)
  {
    React(Own(c, x), x.state, ObserveReq(c.leader, c.aggregator, round, Some(x.data)))
  }

  /** After its report request too. */
  function Signed(c: Config, x: Party, round: int, report: Report, keys: set<PeerId>): FollowerResult
    requires ValidLedger(c.ledger)
  {
    React(Own(c, x), Asked(c, x, round).state, ReportReq(c.leader, c.aggregator, report, keys, x.last, x.now))
  }

  /** After its final too. */
  function Informed(c: Config, x: Party, round: int, report: Report, keys: set<PeerId>,
                    a: AttestedReport): FollowerResult
    requires ValidLedger(c.ledger)
  {
    React(Own(c, x), Signed(c, x, round, report, keys).state, Final(c.leader, c.aggregator, a))
  }

  /** The state and the last outputs after a sequence of messages. */
  function Hear(c: Config, s: FollowerState, inputs: seq<FollowerInput>): FollowerResult
    requires ValidLedger(c.ledger)
  {
    if inputs == [] then FollowerResult(s, [])
    else React(c, Hear(c, s, inputs[..|inputs| - 1]).state, inputs[|inputs| - 1])
  }

  // ----- What everybody sends -----

  function Observed(c: Config, parties: seq<Party>, round: int): seq<LeaderInput>
    requires ValidLedger(c.ledger)
  {
    if parties == [] then []
    else
      var x := parties[|parties| - 1];
      Observed(c, parties[..|parties| - 1], round) + ToLeader(c, x.info.peerId, Asked(c, x, round).out)
  }

  function Answered(c: Config, parties: seq<Party>, round: int, report: Report, keys: set<PeerId>): seq<LeaderInput>
    requires ValidLedger(c.ledger)
  {
    if parties == [] then []
    else
      var x := parties[|parties| - 1];
      Answered(c, parties[..|parties| - 1], round, report, keys)
      + ToLeader(c, x.info.peerId, Signed(c, x, round, report, keys).out)
  }

  function Echoed(c: Config, parties: seq<Party>, round: int, report: Report, keys: set<PeerId>, a: AttestedReport)
    : seq<FollowerInput>
    requires ValidLedger(c.ledger)
  {
    if parties == [] then []
    else
      var x := parties[|parties| - 1];
      Echoed(c, parties[..|parties| - 1], round, report, keys, a)
      + Echoes(c, x.info.peerId, Informed(c, x, round, report, keys, a).out)
  }

  // ----- Each exchange -----

  ghost predicate Ready(c: Config, parties: seq<Party>, round: int) {
    && ValidLedger(c.ledger) && DistinctMembers(c.ledger, Infos(parties)) && round <= ROUND_MAX
    && forall i :: 0 <= i < |parties| ==> parties[i].state.round < round
  }

  lemma ReadyPrefix(c: Config, parties: seq<Party>, round: int)
    requires Ready(c, parties, round) && parties != []
    ensures Ready(c, parties[..|parties| - 1], round)
    ensures Infos(parties) == Infos(parties[..|parties| - 1]) + [parties[|parties| - 1].info]
    ensures Prices(parties) == Prices(parties[..|parties| - 1]) + [parties[|parties| - 1].data]
  {
    var rest := parties[..|parties| - 1];
    forall i | 0 <= i < |rest| ensures Infos(rest)[i] == Infos(parties)[i] {
    }
  }

  lemma AskedAnswers(c: Config, x: Party, round: int)
    requires ValidLedger(c.ledger) && x.state.round < round <= ROUND_MAX
    ensures Asked(c, x, round).state == FollowerState(round, None, false, false, {})
    ensures ToLeader(c, x.info.peerId, Asked(c, x, round).out) == [ObservationFrom(c, round, x.info, x.data)]
  {
    FollowerObserves(c, Own(c, x), x.state, round, x.data);
    var out := Asked(c, x, round).out;
    assert out[..0] == [];
  }

  lemma {:induction false} ObservedAre(c: Config, parties: seq<Party>, round: int)
    requires Ready(c, parties, round)
    ensures Observed(c, parties, round) == Observations(c, round, Infos(parties), Prices(parties))
  {
    if parties != [] {
      ReadyPrefix(c, parties, round);
      ObservedAre(c, parties[..|parties| - 1], round);
      AskedAnswers(c, parties[|parties| - 1], round);
    }
  }

  /** The follower finds the report acceptable and worth reporting. */
  ghost predicate Worthwhile(c: Config, x: Party, report: Report, keys: set<PeerId>)
  {
    ReportOk(c.ledger, report, keys) && report.observations != [] && ShouldReport(Own(c, x), report, x.last, x.now)
  }

  lemma SignedAnswers(c: Config, x: Party, round: int, report: Report, keys: set<PeerId>)
    requires ValidLedger(c.ledger) && x.state.round < round <= ROUND_MAX && Worthwhile(c, x, report, keys)
    ensures Signed(c, x, round, report, keys).state == FollowerState(round, None, true, false, {})
    ensures ToLeader(c, x.info.peerId, Signed(c, x, round, report, keys).out) ==
            [ReportFrom(c, x.info, x.info, Compress(report))]
  {
    AskedAnswers(c, x, round);
    FollowerReports(c, Own(c, x), Asked(c, x, round).state, report, keys, x.last, x.now);
    var out := Signed(c, x, round, report, keys).out;
    assert out[..0] == [];
  }

  lemma {:induction false} AnsweredAre(c: Config, parties: seq<Party>, round: int, report: Report, keys: set<PeerId>)
    requires Ready(c, parties, round) && forall x :: x in parties ==> Worthwhile(c, x, report, keys)
    ensures Answered(c, parties, round, report, keys) == Answers(c, Infos(parties), Infos(parties), Compress(report))
  {
    if parties != [] {
      ReadyPrefix(c, parties, round);
      AnsweredAre(c, parties[..|parties| - 1], round, report, keys);
      SignedAnswers(c, parties[|parties| - 1], round, report, keys);
    }
  }

  lemma InformedEchoes(c: Config, x: Party, round: int, report: Report, keys: set<PeerId>, a: AttestedReport)
    requires ValidLedger(c.ledger) && x.state.round < round <= ROUND_MAX && Worthwhile(c, x, report, keys)
    requires a.epoch == c.epoch && a.round == round && AttestedOk(c.aggregator, c.ledger, a)
    ensures Informed(c, x, round, report, keys, a).state == FollowerState(round, Some(a), true, false, {})
    ensures Echoes(c, x.info.peerId, Informed(c, x, round, report, keys, a).out) ==
            [FinalEcho(x.info.peerId, c.aggregator, a)]
  {
    SignedAnswers(c, x, round, report, keys);
    var out := Informed(c, x, round, report, keys, a).out;
    assert out == [BroadcastFinalEcho(a)] && out[..0] == [];
  }

  function EchoesFrom(c: Config, senders: seq<OracleInfo>, a: AttestedReport): (inputs: seq<FollowerInput>)
    ensures |inputs| == |senders|
    ensures forall i :: 0 <= i < |inputs| ==> inputs[i] == FinalEcho(senders[i].peerId, c.aggregator, a)
  {
    seq(|senders|, i requires 0 <= i < |senders| => FinalEcho(senders[i].peerId, c.aggregator, a))
  }

  lemma {:induction false} EchoedAre(c: Config, parties: seq<Party>, round: int, report: Report, keys: set<PeerId>,
                                     a: AttestedReport)
    requires Ready(c, parties, round) && forall x :: x in parties ==> Worthwhile(c, x, report, keys)
    requires a.epoch == c.epoch && a.round == round && AttestedOk(c.aggregator, c.ledger, a)
    ensures Echoed(c, parties, round, report, keys, a) == EchoesFrom(c, Infos(parties), a)
  {
    if parties != [] {
      ReadyPrefix(c, parties, round);
      EchoedAre(c, parties[..|parties| - 1], round, report, keys, a);
      InformedEchoes(c, parties[|parties| - 1], round, report, keys, a);
    }
  }

  // ----- The echoes make a follower transmit -----

  /** A follower that has echoed `a` and recorded the echoes of `senders`. */
  function Echoing(c: Config, round: int, a: AttestedReport, senders: seq<OracleInfo>): FollowerState {
    FollowerState(round, Some(a), true, |senders| > FaultBound(c.ledger), PeerIds(senders))
  }

  lemma EchoStep(c: Config, round: int, a: AttestedReport, received: set<PeerId>, p: PeerId)
    requires ValidLedger(c.ledger) && p in PeerIds(c.ledger) && p !in received && |received| <= FaultBound(c.ledger)
    requires a.epoch == c.epoch && a.round == round && AttestedOk(c.aggregator, c.ledger, a)
    ensures
      var enough := |received + {p}| > FaultBound(c.ledger);
      React(c, FollowerState(round, Some(a), true, false, received), FinalEcho(p, c.aggregator, a)) ==
      FollowerResult(FollowerState(round, Some(a), true, enough, received + {p}),
                     if enough then [Transmit(a), Progress] else [])
  {
  }

  lemma SenderIds(ledger: seq<OracleInfo>, senders: seq<OracleInfo>)
    requires DistinctMembers(ledger, senders) && senders != []
    ensures
      var last := |senders| - 1;
      && PeerIds(senders) == PeerIds(senders[..last]) + {senders[last].peerId}
      && senders[last].peerId !in PeerIds(senders[..last]) && senders[last].peerId in PeerIds(ledger)
      && |PeerIds(senders)| == |senders| && |PeerIds(senders[..last])| == last
  {
    var last := |senders| - 1;
    assert senders == senders[..last] + [senders[last]];
    LedgerSize(senders);
    LedgerSize(senders[..last]);
  }

  lemma EchoRecorded(c: Config, round: int, a: AttestedReport, senders: seq<OracleInfo>)
    requires ValidLedger(c.ledger) && DistinctMembers(c.ledger, senders) && 0 < |senders| <= FaultBound(c.ledger) + 1
    requires a.epoch == c.epoch && a.round == round && AttestedOk(c.aggregator, c.ledger, a)
    ensures
      var last := |senders| - 1;
      var r := React(c, Echoing(c, round, a, senders[..last]), FinalEcho(senders[last].peerId, c.aggregator, a));
      && r.state == Echoing(c, round, a, senders)
      && (|senders| == FaultBound(c.ledger) + 1 ==> r.out == [Transmit(a), Progress])
  {
    var last := |senders| - 1;
    SenderIds(c.ledger, senders);
    EchoStep(c, round, a, PeerIds(senders[..last]), senders[last].peerId);
  }

  lemma HearOne(c: Config, s: FollowerState, inputs: seq<FollowerInput>, last: FollowerInput)
    requires ValidLedger(c.ledger)
    ensures Hear(c, s, inputs + [last]) == React(c, Hear(c, s, inputs).state, last)
  {
    assert (inputs + [last])[..|inputs|] == inputs;
  }

  lemma EchoHeard(c: Config, round: int, a: AttestedReport, senders: seq<OracleInfo>, inputs: seq<FollowerInput>)
    requires ValidLedger(c.ledger) && DistinctMembers(c.ledger, senders) && 0 < |senders| <= FaultBound(c.ledger) + 1
    requires a.epoch == c.epoch && a.round == round && AttestedOk(c.aggregator, c.ledger, a)
    requires Hear(c, Echoing(c, round, a, []), inputs).state == Echoing(c, round, a, senders[..|senders| - 1])
    ensures
      var r := Hear(c, Echoing(c, round, a, []), inputs + [FinalEcho(senders[|senders| - 1].peerId, c.aggregator, a)]);
      && r.state == Echoing(c, round, a, senders)
      && (|senders| == FaultBound(c.ledger) + 1 ==> r.out == [Transmit(a), Progress])
  {
    HearOne(c, Echoing(c, round, a, []), inputs, FinalEcho(senders[|senders| - 1].peerId, c.aggregator, a));
    EchoRecorded(c, round, a, senders);
  }

  lemma {:induction false} EchoesHeard(c: Config, round: int, a: AttestedReport, senders: seq<OracleInfo>)
    requires ValidLedger(c.ledger) && DistinctMembers(c.ledger, senders) && |senders| <= FaultBound(c.ledger) + 1
    requires a.epoch == c.epoch && a.round == round && AttestedOk(c.aggregator, c.ledger, a)
    ensures Hear(c, Echoing(c, round, a, []), EchoesFrom(c, senders, a)).state == Echoing(c, round, a, senders)
    ensures senders != [] && |senders| == FaultBound(c.ledger) + 1 ==>
            Hear(c, Echoing(c, round, a, []), EchoesFrom(c, senders, a)).out == [Transmit(a), Progress]
  {
    if senders != [] {
      var last := |senders| - 1;
      var before := EchoesFrom(c, senders[..last], a);
      EchoesHeard(c, round, a, senders[..last]);
      assert EchoesFrom(c, senders, a) == before + [FinalEcho(senders[last].peerId, c.aggregator, a)];
      EchoHeard(c, round, a, senders, before);
    }
  }

  // ----- The round -----

  /** The leader's reaction when it opens the next round: the first one on its startepoch event, later ones
      when the round timer expires. */
  function LeaderOpens(c: Config, s: LeaderState): LeaderResult {
    LeaderReact(c, s, if s.round == 0 then StartEpochEvent(c.aggregator, c.epoch, c.leader) else RoundTimeout)
  }

  lemma RoundOpens(c: Config, s: LeaderState)
    requires ValidLedger(c.ledger)
    ensures LeaderOpens(c, s).out == [BroadcastObserveReq(s.round + 1), RestartRoundTimer]
    ensures LeaderOpens(c, s).state == AfterObservations(c, s.round + 1, [])
  {
    CheckedBound(c.ledger);
  }

  /** The leader once it has opened the next round and got these followers' observations. */
  function LeaderObserved(c: Config, s: LeaderState, parties: seq<Party>): LeaderState
    requires ValidLedger(c.ledger)
  {
    Feed(c, LeaderOpens(c, s).state, Observed(c, parties, s.round + 1)).state
  }

  /** Its reaction to the end of the grace period. */
  function LeaderRequests(c: Config, s: LeaderState, parties: seq<Party>): LeaderResult
    requires ValidLedger(c.ledger)
  {
    LeaderReact(c, LeaderObserved(c, s, parties), GraceTimeout)
  }

  lemma ObservedState(c: Config, s: LeaderState, parties: seq<Party>)
    requires Ready(c, parties, s.round + 1)
    ensures LeaderObserved(c, s, parties) ==
            AfterObservations(c, s.round + 1, Collected(Infos(parties), Prices(parties)))
  {
    RoundOpens(c, s);
    ObservedAre(c, parties, s.round + 1);
    ObservationsCollected(c, s.round + 1, Infos(parties), Prices(parties));
  }

  /** A leader in its grace phase asks for a report that every follower accepts. */
  lemma GraceAsks(c: Config, round: int, infos: seq<OracleInfo>, data: seq<real>, keys: set<PeerId>)
    requires ValidLedger(c.ledger) && DistinctMembers(c.ledger, infos) && |infos| == |data| && round >= 1
    requires |infos| >= 2 * FaultBound(c.ledger) + 1 && PeerIds(c.ledger) <= keys
    ensures
      var s := AfterObservations(c, round, Collected(infos, data));
      var report := AssembleReport(c, s);
      && LeaderReact(c, s, GraceTimeout).out == [BroadcastReportReq(report)]
      && ReportOk(c.ledger, report, keys) && report.observations != []
  {
    var s := AfterObservations(c, round, Collected(infos, data));
    CheckedBound(c.ledger);
    CollectedOk(c, infos, data);
    assert PhaseInv(c, s);
    AssembledIsAcceptable(c, s, keys);
    ReportOkNonempty(c.ledger, AssembleReport(c, s), keys);
  }

  /** The report it then asks for, which every follower accepts. */
  lemma LeaderAsks(c: Config, s: LeaderState, parties: seq<Party>, keys: set<PeerId>) returns (report: Report)
    requires Ready(c, parties, s.round + 1) && s.round >= 0 && |parties| >= 2 * FaultBound(c.ledger) + 1
    requires PeerIds(c.ledger) <= keys
    ensures LeaderRequests(c, s, parties).out == [BroadcastReportReq(report)]
    ensures ReportOk(c.ledger, report, keys) && report.observations != []
    ensures LeaderObserved(c, s, parties) ==
            AfterObservations(c, s.round + 1, Collected(Infos(parties), Prices(parties)))
    ensures report == AssembleReport(c, LeaderObserved(c, s, parties))
  {
    ObservedState(c, s, parties);
    var infos, data := Infos(parties), Prices(parties);
    assert |infos| == |data| == |parties|;
    report := AskedReport(c, s.round + 1, infos, data, LeaderObserved(c, s, parties), keys);
  }

  lemma AskedReport(c: Config, round: int, infos: seq<OracleInfo>, data: seq<real>, observed: LeaderState,
                    keys: set<PeerId>)
    returns (report: Report)
    requires ValidLedger(c.ledger) && DistinctMembers(c.ledger, infos) && |infos| == |data| && round >= 1
    requires |infos| >= 2 * FaultBound(c.ledger) + 1 && PeerIds(c.ledger) <= keys
    requires observed == AfterObservations(c, round, Collected(infos, data))
    ensures LeaderReact(c, observed, GraceTimeout).out == [BroadcastReportReq(report)]
    ensures ReportOk(c.ledger, report, keys) && report.observations != []
    ensures report == AssembleReport(c, observed)
  {
    GraceAsks(c, round, infos, data, keys);
    report := AssembleReport(c, observed);
  }

  /** A whole round. A correct leader opens it; 2f + 1 or more followers of its epoch, in earlier rounds,
      observe; the grace period ends; f + 1 of them, in any order, answer the request; the leader
      broadcasts its final; f + 1 of them, in any order, are heard echoing it. If the followers find the
      report worth reporting, then each of them transmits that final, which every oracle accepts. */
  lemma RoundTransmits(c: Config, s: LeaderState, parties: seq<Party>, answering: seq<Party>, echoing: seq<Party>,
                       keys: set<PeerId>, x: Party)
    returns (report: Report, a: AttestedReport)
    requires Ready(c, parties, s.round + 1) && s.round >= 0 && |parties| >= 2 * FaultBound(c.ledger) + 1
    requires Ready(c, answering, s.round + 1) && |answering| == FaultBound(c.ledger) + 1
    requires Ready(c, echoing, s.round + 1) && |echoing| == FaultBound(c.ledger) + 1
    requires forall y :: y in answering || y in echoing ==> y in parties
    requires PeerIds(c.ledger) <= keys && x in parties
    ensures LeaderOpens(c, s).out == [BroadcastObserveReq(s.round + 1), RestartRoundTimer]
    ensures LeaderRequests(c, s, parties).out == [BroadcastReportReq(report)]
    ensures report.observations != []
    ensures
      (forall y :: y in parties ==> ShouldReport(Own(c, y), report, y.last, y.now)) ==>
      var round := s.round + 1;
      var done := Hear(Own(c, x), Informed(c, x, round, report, keys, a).state, Echoed(c, echoing, round, report, keys, a));
      && Feed(c, LeaderRequests(c, s, parties).state, Answered(c, answering, round, report, keys)).out == [BroadcastFinal(a)]
      && a.epoch == c.epoch && a.round == round && AttestedOk(c.aggregator, c.ledger, a)
      && a.observations == StripSignatures(report.observations)
      && done.out == [Transmit(a), Progress]
  {
    RoundOpens(c, s);
    report := LeaderAsks(c, s, parties, keys);
    a := FinalOf(c, s.round + 1, Infos(answering), Infos(answering), Compress(report));
    if forall y :: y in parties ==> ShouldReport(Own(c, y), report, y.last, y.now) {
      WorthwhileAll(c, parties, report, keys);
      LeaderAwaits(c, s, parties);
      LeaderFinishes(c, LeaderRequests(c, s, parties).state, s.round + 1, answering, keys, report);
      FollowerTransmits(c, s.round + 1, parties, echoing, keys, report, a, x);
    }
  }

  lemma WorthwhileAll(c: Config, parties: seq<Party>, report: Report, keys: set<PeerId>)
    requires ReportOk(c.ledger, report, keys) && report.observations != []
    requires forall y :: y in parties ==> ShouldReport(Own(c, y), report, y.last, y.now)
    ensures forall y :: y in parties ==> Worthwhile(c, y, report, keys)
  {
  }

  /** A leader that has sent this request and awaits reports. */
  ghost predicate AwaitsReports(c: Config, requested: LeaderState, round: int, report: Report) {
    && requested == AfterReports(c, requested, []) && requested.round == round
    && report.epoch == c.epoch && report.round == round
    && forall ob :: ob in Compress(report).observations ==> ob.oracle in PeerIds(c.ledger)
  }

  lemma LeaderAwaits(c: Config, s: LeaderState, parties: seq<Party>)
    requires Ready(c, parties, s.round + 1) && s.round >= 0 && |parties| >= 2 * FaultBound(c.ledger) + 1
    ensures AwaitsReports(c, LeaderRequests(c, s, parties).state, s.round + 1, AssembleReport(c, LeaderObserved(c, s, parties)))
  {
    ObservedState(c, s, parties);
    GraceEnds(c, s.round + 1, Infos(parties), Prices(parties));
  }

  lemma LeaderFinishes(c: Config, requested: LeaderState, round: int, answering: seq<Party>, keys: set<PeerId>, report: Report)
    requires Ready(c, answering, round) && |answering| == FaultBound(c.ledger) + 1
    requires forall y :: y in answering ==> Worthwhile(c, y, report, keys)
    requires AwaitsReports(c, requested, round, report)
    ensures
      var a := FinalOf(c, round, Infos(answering), Infos(answering), Compress(report));
      && Feed(c, requested, Answered(c, answering, round, report, keys)).out == [BroadcastFinal(a)]
      && AttestedOk(c.aggregator, c.ledger, a)
  {
    AnsweredAre(c, answering, round, report, keys);
    var infos := Infos(answering);
    assert forall i :: 0 <= i < |infos| ==> infos[i] in c.ledger;
    FinishesFrom(c, requested, round, infos, Compress(report));
  }

  lemma FinishesFrom(c: Config, requested: LeaderState, round: int, infos: seq<OracleInfo>, compressed: CompressedReport)
    requires Answerable(c, round, infos, infos, compressed) && |infos| == FaultBound(c.ledger) + 1
    requires requested == AfterReports(c, requested, []) && requested.round == round
    ensures
      var a := FinalOf(c, round, infos, infos, compressed);
      Feed(c, requested, Answers(c, infos, infos, compressed)).out == [BroadcastFinal(a)] && AttestedOk(c.aggregator, c.ledger, a)
  {
    AnswersEndRound(c, requested, infos, infos, compressed);
    FinalOfAccepted(c, round, infos, infos, compressed);
  }

  lemma FollowerTransmits(c: Config, round: int, parties: seq<Party>, echoing: seq<Party>, keys: set<PeerId>,
                          report: Report, a: AttestedReport, x: Party)
    requires Ready(c, parties, round) && x in parties
    requires Ready(c, echoing, round) && |echoing| == FaultBound(c.ledger) + 1
    requires forall y :: y in parties || y in echoing ==> Worthwhile(c, y, report, keys)
    requires a.epoch == c.epoch && a.round == round && AttestedOk(c.aggregator, c.ledger, a)
    ensures Hear(Own(c, x), Informed(c, x, round, report, keys, a).state, Echoed(c, echoing, round, report, keys, a)).out
            == [Transmit(a), Progress]
  {
    EchoedAre(c, echoing, round, report, keys, a);
    InformedEchoes(c, x, round, report, keys, a);
    CheckedBound(c.ledger);
    assert PeerIds([]) == {};
    assert EchoesFrom(c, Infos(echoing), a) == EchoesFrom(Own(c, x), Infos(echoing), a);
    EchoesHeard(Own(c, x), round, a, Infos(echoing));
  }
}
