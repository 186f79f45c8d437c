/** The leader's side of a round: what its followers send is what it collects, and enough answers end the
    round with a final that every oracle accepts. */
module Exchange {
  import opened Options
  import opened Ledger
  import opened Reports
  import opened Contract
  import opened Follower
  import opened Leader

  /** The observation message of oracle `info` for a round. */
  function ObservationFrom(c: Config, round: int, info: OracleInfo, data: real): LeaderInput {
    ObserveMsg(info.peerId, c.aggregator, c.epoch, round, data, PeerSig(info.peerId, data), true)
  }

  /** A report message of oracle `info` with a signature by oracle `signer`; honest oracles sign themselves. */
  function ReportFrom(c: Config, info: OracleInfo, signer: OracleInfo, compressed: CompressedReport): LeaderInput {
    ReportMsg(info.peerId, c.aggregator, compressed,
              Signature(signer.address,
                        SignatureOf(signer.publicKey, c.ledger, compressed.observations, compressed.epoch,
                                    compressed.round, c.aggregator)))
  }

  /** A follower of the same epoch answers an accepted observation request with that message. */
  lemma FollowerObserves(c: Config, follower: Config, s: FollowerState, round: int, data: real)
    requires follower == c.(me := follower.me) && ValidLedger(c.ledger)
    requires s.round < round <= ROUND_MAX
    ensures
      var r := Follower.React(follower, s, ObserveReq(c.leader, c.aggregator, round, Some(data)));
      var input := ObservationFrom(c, round, follower.me, data);
      r.out == [SendObserve(c.leader, input.epoch, input.round, input.data, input.signature)] && r.state.round == round
  {
  }

  /** A follower that accepts a report request and finds it worth reporting answers with that message. */
  lemma FollowerReports(c: Config, follower: Config, s: FollowerState, report: Report, keys: set<PeerId>,
                        last: Option<ChainReport>, now: int)
    requires follower == c.(me := follower.me) && ValidLedger(c.ledger)
    requires ReportOk(c.ledger, report, keys) && report.observations != [] && ShouldReport(follower, report, last, now)
    ensures
      var r := Follower.React(follower, s, ReportReq(c.leader, c.aggregator, report, keys, last, now));
      var input := ReportFrom(c, follower.me, follower.me, Compress(report));
      r.out == [SendReport(c.leader, input.compressed, input.reportSignature)]
  {
  }

  // ----- The leader's side -----

  /** The state and the last outputs after a sequence of messages. */
  function Feed(c: Config, s: LeaderState, inputs: seq<LeaderInput>): LeaderResult {
    if inputs == [] then LeaderResult(s, [])
    else LeaderReact(c, Feed(c, s, inputs[..|inputs| - 1]).state, inputs[|inputs| - 1])
  }

  lemma FeedOne(c: Config, s: LeaderState, inputs: seq<LeaderInput>, last: LeaderInput)
    ensures Feed(c, s, inputs + [last]) == LeaderReact(c, Feed(c, s, inputs).state, last)
  {
    assert (inputs + [last])[..|inputs|] == inputs;
  }

  predicate DistinctMembers(ledger: seq<OracleInfo>, oracles: seq<OracleInfo>) {
    && (forall i :: 0 <= i < |oracles| ==> oracles[i] in ledger)
    && forall i, j :: 0 <= i < j < |oracles| ==> oracles[i].peerId != oracles[j].peerId
  }

  function Observations(c: Config, round: int, oracles: seq<OracleInfo>, data: seq<real>): (inputs: seq<LeaderInput>)
    requires |oracles| == |data|
    ensures |inputs| == |oracles|
    ensures forall i :: 0 <= i < |inputs| ==> inputs[i] == ObservationFrom(c, round, oracles[i], data[i])
  {
    seq(|oracles|, i requires 0 <= i < |oracles| => ObservationFrom(c, round, oracles[i], data[i]))
  }

  function Collected(oracles: seq<OracleInfo>, data: seq<real>): (observe: seq<SignedObservation>)
    requires |oracles| == |data|
    ensures |observe| == |oracles|
    ensures forall i :: 0 <= i < |observe| ==>
      observe[i] == SignedObservation(oracles[i].peerId, data[i], PeerSig(oracles[i].peerId, data[i]))
  {
    seq(|oracles|, i requires 0 <= i < |oracles| =>
      SignedObservation(oracles[i].peerId, data[i], PeerSig(oracles[i].peerId, data[i])))
  }

  function AfterObservations(c: Config, round: int, observe: seq<SignedObservation>): LeaderState {
    LeaderState(round, observe, [], Some(if |observe| >= 2 * FaultBound(c.ledger) + 1 then Grace else Observe))
  }

  lemma ObservationStored(c: Config, round: int, oracles: seq<OracleInfo>, data: seq<real>)
    requires ValidLedger(c.ledger) && DistinctMembers(c.ledger, oracles) && 0 < |oracles| == |data|
    ensures
      var last := |oracles| - 1;
      LeaderReact(c, AfterObservations(c, round, Collected(oracles[..last], data[..last])),
                  ObservationFrom(c, round, oracles[last], data[last])).state
      == AfterObservations(c, round, Collected(oracles, data))
  {
    var last := |oracles| - 1;
    var before := Collected(oracles[..last], data[..last]);
    assert oracles[last].peerId !in Oracles(before);
    assert oracles[last].peerId in PeerIds(c.ledger);
    assert Collected(oracles, data) ==
           before + [SignedObservation(oracles[last].peerId, data[last], PeerSig(oracles[last].peerId, data[last]))];
  }

  lemma {:induction false} ObservationsCollected(c: Config, round: int, oracles: seq<OracleInfo>, data: seq<real>)
    requires ValidLedger(c.ledger) && DistinctMembers(c.ledger, oracles) && |oracles| == |data|
    ensures Feed(c, AfterObservations(c, round, []), Observations(c, round, oracles, data)).state ==
            AfterObservations(c, round, Collected(oracles, data))
    decreases |oracles|
  {
    if oracles != [] {
      var last := |oracles| - 1;
      ObservationsCollected(c, round, oracles[..last], data[..last]);
      var before := Observations(c, round, oracles[..last], data[..last]);
      assert Observations(c, round, oracles, data) == before + [ObservationFrom(c, round, oracles[last], data[last])];
      FeedOne(c, AfterObservations(c, round, []), before, ObservationFrom(c, round, oracles[last], data[last]));
      ObservationStored(c, round, oracles, data);
    }
  }

  function Answers(c: Config, oracles: seq<OracleInfo>, signers: seq<OracleInfo>, compressed: CompressedReport)
    : (inputs: seq<LeaderInput>)
    requires |signers| == |oracles|
    ensures |inputs| == |oracles|
    ensures forall i :: 0 <= i < |inputs| ==> inputs[i] == ReportFrom(c, oracles[i], signers[i], compressed)
  {
    seq(|oracles|, i requires 0 <= i < |oracles| => ReportFrom(c, oracles[i], signers[i], compressed))
  }

  function EntryFrom(c: Config, info: OracleInfo, signer: OracleInfo, compressed: CompressedReport): ReportEntry {
    ReportEntry(info.peerId, compressed, ReportFrom(c, info, signer, compressed).reportSignature)
  }

  function Entries(c: Config, oracles: seq<OracleInfo>, signers: seq<OracleInfo>, compressed: CompressedReport)
    : (entries: seq<ReportEntry>)
    requires |signers| == |oracles|
    ensures |entries| == |oracles|
    ensures forall i :: 0 <= i < |entries| ==> entries[i] == EntryFrom(c, oracles[i], signers[i], compressed)
  {
    seq(|oracles|, i requires 0 <= i < |oracles| => EntryFrom(c, oracles[i], signers[i], compressed))
  }

  /** Where the leader is with its request sent and the given reports collected. */
  function AfterReports(c: Config, requested: LeaderState, entries: seq<ReportEntry>): LeaderState {
    requested.(report := entries, phase := Some(if |entries| > FaultBound(c.ledger) then FinalPhase else ReportPhase))
  }

  /** Members answer the request of the current round, with signatures by members. */
  ghost predicate Answerable(c: Config, round: int, oracles: seq<OracleInfo>, signers: seq<OracleInfo>,
                             compressed: CompressedReport) {
    && ValidLedger(c.ledger) && DistinctMembers(c.ledger, oracles) && |oracles| == |signers|
    && (forall i :: 0 <= i < |signers| ==> signers[i] in c.ledger)
    && compressed.epoch == c.epoch && compressed.round == round
    && forall ob :: ob in compressed.observations ==> ob.oracle in PeerIds(c.ledger)
  }

  lemma ReportStored(c: Config, s: LeaderState, oracles: seq<OracleInfo>, signers: seq<OracleInfo>,
                     compressed: CompressedReport)
    requires Answerable(c, s.round, oracles, signers, compressed) && 0 < |oracles| <= FaultBound(c.ledger) + 1
    ensures
      var last := |oracles| - 1;
      var r := LeaderReact(c, AfterReports(c, s, Entries(c, oracles[..last], signers[..last], compressed)),
                           ReportFrom(c, oracles[last], signers[last], compressed));
      var entries := Entries(c, oracles, signers, compressed);
      && r.state == AfterReports(c, s, entries)
      && (|oracles| == FaultBound(c.ledger) + 1 ==>
          r.out == [BroadcastFinal(AttestedReport(c.epoch, s.round, compressed.observations, SignaturesOf(entries)))])
  {
    var last := |oracles| - 1;
    var before := Entries(c, oracles[..last], signers[..last], compressed);
    OwnSignatureVerifiesExactly(signers[last], c.ledger, compressed, c.aggregator);
    assert oracles[last].peerId in PeerIds(c.ledger);
    assert oracles[last].peerId !in Senders(before);
    assert Entries(c, oracles, signers, compressed) == before + [EntryFrom(c, oracles[last], signers[last], compressed)];
  }

  lemma {:induction false} ReportsCollected(c: Config, s: LeaderState, oracles: seq<OracleInfo>,
                                            signers: seq<OracleInfo>,
                                            compressed: CompressedReport)
    requires Answerable(c, s.round, oracles, signers, compressed) && |oracles| <= FaultBound(c.ledger) + 1
    ensures Feed(c, AfterReports(c, s, []), Answers(c, oracles, signers, compressed)).state ==
            AfterReports(c, s, Entries(c, oracles, signers, compressed))
    decreases |oracles|
  {
    if oracles != [] {
      var last := |oracles| - 1;
      AnswerablePrefix(c, s.round, oracles, signers, compressed);
      ReportsCollected(c, s, oracles[..last], signers[..last], compressed);
      ReportFed(c, s, oracles, signers, compressed, Answers(c, oracles[..last], signers[..last], compressed));
    } else {
      CheckedBound(c.ledger);
    }
  }

  lemma AnswerablePrefix(c: Config, round: int, oracles: seq<OracleInfo>, signers: seq<OracleInfo>,
                         compressed: CompressedReport)
    requires Answerable(c, round, oracles, signers, compressed) && oracles != []
    ensures
      var last := |oracles| - 1;
      && Answerable(c, round, oracles[..last], signers[..last], compressed)
      && Answers(c, oracles, signers, compressed) ==
         Answers(c, oracles[..last], signers[..last], compressed)
         + [ReportFrom(c, oracles[last], signers[last], compressed)]
  {
  }

  lemma ReportFed(c: Config, s: LeaderState, oracles: seq<OracleInfo>, signers: seq<OracleInfo>,
                  compressed: CompressedReport, inputs: seq<LeaderInput>)
    requires Answerable(c, s.round, oracles, signers, compressed) && 0 < |oracles| <= FaultBound(c.ledger) + 1
    requires Feed(c, AfterReports(c, s, []), inputs).state ==
             AfterReports(c, s, Entries(c, oracles[..|oracles| - 1], signers[..|oracles| - 1], compressed))
    ensures Feed(c, AfterReports(c, s, []), inputs + [ReportFrom(c, oracles[|oracles| - 1], signers[|oracles| - 1], compressed)]).state
            == AfterReports(c, s, Entries(c, oracles, signers, compressed))
  {
    FeedOne(c, AfterReports(c, s, []), inputs, ReportFrom(c, oracles[|oracles| - 1], signers[|oracles| - 1], compressed));
    ReportStored(c, s, oracles, signers, compressed);
  }

  lemma CheckedBound(ledger: seq<OracleInfo>)
    requires ValidLedger(ledger)
    ensures 0 <= FaultBound(ledger)
  {
  }

  /** The final of a leader that has collected these answers. */
  function FinalOf(c: Config, round: int, oracles: seq<OracleInfo>, signers: seq<OracleInfo>,
                   compressed: CompressedReport)
    : AttestedReport
    requires |signers| == |oracles|
  {
    AttestedReport(c.epoch, round, compressed.observations, SignaturesOf(Entries(c, oracles, signers, compressed)))
  }

  /** Every oracle accepts it. */
  lemma FinalOfAccepted(c: Config, round: int, oracles: seq<OracleInfo>, signers: seq<OracleInfo>,
                        compressed: CompressedReport)
    requires Answerable(c, round, oracles, signers, compressed) && |oracles| > FaultBound(c.ledger)
    ensures AttestedOk(c.aggregator, c.ledger, FinalOf(c, round, oracles, signers, compressed))
  {
    var a := FinalOf(c, round, oracles, signers, compressed);
    var payload := PayloadOf(c.ledger, a.observations, a.epoch, a.round, c.aggregator);
    forall signature | signature in a.signatures ensures SignedBy(c.ledger, payload.value, signature) {
      var i :| 0 <= i < |a.signatures| && a.signatures[i] == signature;
      LookupsAgree(c.ledger, signers[i]);
    }
  }

  lemma AnswersEndRound(c: Config, s: LeaderState, oracles: seq<OracleInfo>, signers: seq<OracleInfo>,
                        compressed: CompressedReport)
    requires Answerable(c, s.round, oracles, signers, compressed) && |oracles| == FaultBound(c.ledger) + 1
    requires s == AfterReports(c, s, [])
    ensures
      var answered := Feed(c, s, Answers(c, oracles, signers, compressed));
      && answered.out == [BroadcastFinal(FinalOf(c, s.round, oracles, signers, compressed))]
      && answered.state.phase == Some(FinalPhase)
  {
    CheckedBound(c.ledger);
    var last := |oracles| - 1;
    assert Answers(c, oracles, signers, compressed)[..last] == Answers(c, oracles[..last], signers[..last], compressed);
    ReportsCollected(c, s, oracles[..last], signers[..last], compressed);
    ReportStored(c, s, oracles, signers, compressed);
  }

  lemma CollectedOk(c: Config, oracles: seq<OracleInfo>, data: seq<real>)
    requires DistinctMembers(c.ledger, oracles) && |oracles| == |data|
    ensures ObservationsOk(c, Collected(oracles, data))
  {
    forall ob | ob in Collected(oracles, data)
      ensures ob.oracle in PeerIds(c.ledger) && VerifyPeerSig(ob.oracle, ob.data, ob.signature)
    {
      var i :| 0 <= i < |oracles| && Collected(oracles, data)[i] == ob;
      assert oracles[i] in c.ledger;
    }
  }

  lemma AssembledMember(c: Config, s: LeaderState, oracles: seq<OracleInfo>, data: seq<real>, ob: Observation)
    requires DistinctMembers(c.ledger, oracles) && |oracles| == |data| && s.observe == Collected(oracles, data)
    requires ob in Compress(AssembleReport(c, s)).observations
    ensures ob.oracle in PeerIds(c.ledger)
  {
    var sorted := SortByOracle(s.observe);
    var i :| 0 <= i < |sorted| && StripSignatures(sorted)[i] == ob;
    assert sorted[i] in s.observe;
    var j :| 0 <= j < |s.observe| && s.observe[j] == sorted[i];
    assert oracles[j] in c.ledger;
  }

  /** The end of the grace period: the leader asks for all it has collected and awaits reports. */
  lemma GraceEnds(c: Config, round: int, oracles: seq<OracleInfo>, data: seq<real>)
    requires ValidLedger(c.ledger) && round >= 1
    requires DistinctMembers(c.ledger, oracles) && |oracles| == |data| && |oracles| >= 2 * FaultBound(c.ledger) + 1
    ensures
      var observed := AfterObservations(c, round, Collected(oracles, data));
      var requested := LeaderReact(c, observed, GraceTimeout);
      var report := AssembleReport(c, observed);
      && requested.out == [BroadcastReportReq(report)]
      && requested.state == AfterReports(c, requested.state, []) && requested.state.round == round
      && report.epoch == c.epoch && report.round == round
      && forall ob :: ob in Compress(report).observations ==> ob.oracle in PeerIds(c.ledger)
  {
    CheckedBound(c.ledger);
    var observed := AfterObservations(c, round, Collected(oracles, data));
    forall ob | ob in Compress(AssembleReport(c, observed)).observations ensures ob.oracle in PeerIds(c.ledger) {
      AssembledMember(c, observed, oracles, data, ob);
    }
  }

  /** A leader's round ends: from its start, observations of any 2f + 1 or more distinct ledger oracles,
      the end of the grace period, and f + 1 answers of distinct oracles to the assembled request, signed
      by any ledger oracles, make the leader broadcast a final that every oracle accepts. */
  lemma RoundCompletes(c: Config, round: int, oracles: seq<OracleInfo>, data: seq<real>,
                       senders: seq<OracleInfo>, signers: seq<OracleInfo>)
    requires ValidLedger(c.ledger) && round >= 1
    requires DistinctMembers(c.ledger, oracles) && |oracles| == |data| && |oracles| >= 2 * FaultBound(c.ledger) + 1
    requires DistinctMembers(c.ledger, senders) && |senders| == |signers| == FaultBound(c.ledger) + 1
    requires forall i :: 0 <= i < |signers| ==> signers[i] in c.ledger
    ensures
      var observed := Feed(c, AfterObservations(c, round, []), Observations(c, round, oracles, data)).state;
      var requested := LeaderReact(c, observed, GraceTimeout);
      var report := AssembleReport(c, observed);
      var answered := Feed(c, requested.state, Answers(c, senders, signers, Compress(report)));
      var a := FinalOf(c, round, senders, signers, Compress(report));
      && observed == AfterObservations(c, round, Collected(oracles, data))
      && requested.out == [BroadcastReportReq(report)]
      && answered.out == [BroadcastFinal(a)] && answered.state.phase == Some(FinalPhase)
      && AttestedOk(c.aggregator, c.ledger, a)
  {
    CheckedBound(c.ledger);
    ObservationsCollected(c, round, oracles, data);
    GraceEnds(c, round, oracles, data);
    var observed := AfterObservations(c, round, Collected(oracles, data));
    var report := AssembleReport(c, observed);
    var requested := LeaderReact(c, observed, GraceTimeout).state;
    AnswersEndRound(c, requested, senders, signers, Compress(report));
    FinalOfAccepted(c, round, senders, signers, Compress(report));
  }

  /** The same signature sent by f + 1 members counts f + 1 times: the leader then broadcasts a final
      that every oracle accepts although it has a single signer. */
  lemma ReplayWitness(c: Config, round: int, oracles: seq<OracleInfo>, data: seq<real>,
                      senders: seq<OracleInfo>, signer: OracleInfo) returns (a: AttestedReport)
    requires ValidLedger(c.ledger) && round >= 1 && signer in c.ledger
    requires DistinctMembers(c.ledger, oracles) && |oracles| == |data| && |oracles| >= 2 * FaultBound(c.ledger) + 1
    requires DistinctMembers(c.ledger, senders) && |senders| == FaultBound(c.ledger) + 1
    ensures
      var observed := Feed(c, AfterObservations(c, round, []), Observations(c, round, oracles, data)).state;
      var requested := LeaderReact(c, observed, GraceTimeout).state;
      var replayed := Answers(c, senders, seq(|senders|, _ => signer), Compress(AssembleReport(c, observed)));
      Feed(c, requested, replayed).out == [BroadcastFinal(a)]
    ensures AttestedOk(c.aggregator, c.ledger, a) && Signers(a.signatures) == {signer.address}
  {
    var signers := seq(|senders|, _ => signer);
    RoundCompletes(c, round, oracles, data, senders, signers);
    var observed := AfterObservations(c, round, Collected(oracles, data));
    a := FinalOf(c, round, senders, signers, Compress(AssembleReport(c, observed)));
    CheckedBound(c.ledger);
    assert a.signatures[0].oracle == signer.address;
  }
}
