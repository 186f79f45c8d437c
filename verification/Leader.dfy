/** One report generation leader: the reaction of each handler, and what every run of it keeps. */
module Leader {
  import opened Options
  import opened Ledger
  import opened Reports
  import opened Contract
  import opened Median
  import opened Follower

  datatype Phase = Observe | Grace | ReportPhase | FinalPhase

  datatype ReportEntry = ReportEntry(from: PeerId, compressed: CompressedReport, signature: Signature)

  /** `observe` and `report` are the source's maps, as insertion-ordered lists of their entries. */
  datatype LeaderState = LeaderState(
    round: int, observe: seq<SignedObservation>, report: seq<ReportEntry>, phase: Option<Phase>)

  const LEADER_INITIAL := LeaderState(0, [], [], None)

  datatype LeaderInput =
    | ObserveMsg(from: PeerId, aggregator: Address, epoch: int, round: int, data: real, signature: PeerSig, keyKnown: bool)
    | ReportMsg(from: PeerId, aggregator: Address, compressed: CompressedReport, reportSignature: Signature)
    | StartEpochEvent(aggregator: Address, epoch: int, leader: PeerId)
    | RoundTimeout
    | GraceTimeout

  datatype LeaderOut =
    | BroadcastObserveReq(round: int)
    | BroadcastReportReq(report: Report)
    | BroadcastFinal(attested: AttestedReport)
    | RestartGraceTimer
    | RestartRoundTimer

  datatype LeaderResult = LeaderResult(state: LeaderState, out: seq<LeaderOut>)

  // ----- Assembling the report -----

  function InsertByOracle(ob: SignedObservation, s: seq<SignedObservation>): (r: seq<SignedObservation>)
    requires SortedByOracle(s)
    ensures SortedByOracle(r) && |r| == |s| + 1
    ensures forall x :: x in r <==> x == ob || x in s
    ensures r[0] == ob || (s != [] && r[0] == s[0])
  {
    if s == [] || ob.oracle.rank <= s[0].oracle.rank then [ob] + s
    else
      var rest := InsertByOracle(ob, s[1..]);
      assert s == [s[0]] + s[1..];
      [s[0]] + rest
  }

  function SortByOracle(s: seq<SignedObservation>): (r: seq<SignedObservation>)
    ensures SortedByOracle(r) && |r| == |s|
    ensures forall x :: x in r <==> x in s
  {
    if s == [] then []
    else
      var last := |s| - 1;
      assert s == s[..last] + [s[last]];
      InsertByOracle(s[last], SortByOracle(s[..last]))
  }

  lemma {:induction false} InsertKeepsOthers(ob: SignedObservation, s: seq<SignedObservation>)
    requires SortedByOracle(s)
    ensures multiset(InsertByOracle(ob, s)) == multiset(s) + multiset{ob}
  {
    if s != [] && ob.oracle.rank > s[0].oracle.rank {
      InsertKeepsOthers(ob, s[1..]);
      assert s == [s[0]] + s[1..];
    }
  }

  /** The assembled observations are exactly the collected ones. */
  lemma {:induction false} SortKeepsAll(s: seq<SignedObservation>)
    ensures multiset(SortByOracle(s)) == multiset(s)
  {
    if s != [] {
      var last := |s| - 1;
      SortKeepsAll(s[..last]);
      InsertKeepsOthers(s[last], SortByOracle(s[..last]));
      assert s == s[..last] + [s[last]];
    }
  }

  function AssembleReport(c: Config, s: LeaderState): Report {
    Report(c.epoch, s.round, SortByOracle(s.observe))
  }

  // ----- Handlers -----

  function Senders(report: seq<ReportEntry>): set<PeerId> {
    set entry | entry in report :: entry.from
  }

  predicate ObserveOk(c: Config, s: LeaderState, input: LeaderInput)
    requires input.ObserveMsg?
  {
    && input.aggregator == c.aggregator && input.from in PeerIds(c.ledger)
    && input.epoch == c.epoch && input.round == s.round
    && input.from !in Oracles(s.observe)
    && (s.phase == Some(Observe) || s.phase == Some(Grace))
    && input.keyKnown && VerifyPeerSig(input.from, input.data, input.signature)
  }

  function OnObserve(c: Config, s: LeaderState, input: LeaderInput): LeaderResult
    requires input.ObserveMsg?
  {
    if !ObserveOk(c, s, input) then LeaderResult(s, [])
    else
      var observe := s.observe + [SignedObservation(input.from, input.data, input.signature)];
      if |observe| == 2 * FaultBound(c.ledger) + 1 then
        LeaderResult(s.(observe := observe, phase := Some(Grace)), [RestartGraceTimer])
      else
        LeaderResult(s.(observe := observe), [])
  }

  predicate ReportMsgOk(c: Config, s: LeaderState, input: LeaderInput)
    requires input.ReportMsg?
  {
    && input.aggregator == c.aggregator && input.from in PeerIds(c.ledger)
    && input.compressed.epoch == c.epoch && input.compressed.round == s.round
    && input.from !in Senders(s.report) && s.phase == Some(ReportPhase)
    && ReportSignatureOk(c.aggregator, c.ledger, input.compressed, input.reportSignature)
  }

  function SignaturesOf(report: seq<ReportEntry>): (signatures: seq<Signature>)
    ensures |signatures| == |report|
    ensures forall i :: 0 <= i < |report| ==> signatures[i] == report[i].signature
  {
    seq(|report|, i requires 0 <= i < |report| => report[i].signature)
  }

  function OnReport(c: Config, s: LeaderState, input: LeaderInput): LeaderResult
    requires input.ReportMsg?
  {
    if !ReportMsgOk(c, s, input) then LeaderResult(s, [])
    else
      var report := s.report + [ReportEntry(input.from, input.compressed, input.reportSignature)];
      if |report| <= FaultBound(c.ledger) then LeaderResult(s.(report := report), [])
      else
        LeaderResult(
          s.(report := report, phase := Some(FinalPhase)),
          [BroadcastFinal(AttestedReport(c.epoch, s.round, input.compressed.observations, SignaturesOf(report)))])
  }

  function StartRound(s: LeaderState): LeaderResult {
    LeaderResult(LeaderState(s.round + 1, [], [], Some(Observe)), [BroadcastObserveReq(s.round + 1), RestartRoundTimer])
  }

  function LeaderReact(c: Config, s: LeaderState, input: LeaderInput): LeaderResult {
    match input
    case ObserveMsg(_, _, _, _, _, _, _) => OnObserve(c, s, input)
    case ReportMsg(_, _, _, _) => OnReport(c, s, input)
    case StartEpochEvent(aggregator, epoch, leader) =>
      if aggregator != c.aggregator || epoch != c.epoch || leader != c.leader then LeaderResult(s, []) else StartRound(s)
    case RoundTimeout => StartRound(s)
    case GraceTimeout =>
      if s.phase != Some(Grace) then LeaderResult(s, [])
      else LeaderResult(s.(phase := Some(ReportPhase)), [BroadcastReportReq(AssembleReport(c, s))])
  }

  // ----- Phase invariant -----

  predicate DistinctSigned(observations: seq<SignedObservation>) {
    forall i, j :: 0 <= i < j < |observations| ==> observations[i].oracle != observations[j].oracle
  }

  predicate ObservationsOk(c: Config, observations: seq<SignedObservation>) {
    && DistinctSigned(observations)
    && forall ob :: ob in observations ==>
      ob.oracle in PeerIds(c.ledger) && VerifyPeerSig(ob.oracle, ob.data, ob.signature)
  }

  predicate ReportsOk(c: Config, round: int, report: seq<ReportEntry>) {
    && (forall i, j :: 0 <= i < j < |report| ==> report[i].from != report[j].from)
    && forall entry :: entry in report ==>
      && entry.from in PeerIds(c.ledger)
      && entry.compressed.epoch == c.epoch && entry.compressed.round == round
      && ReportSignatureOk(c.aggregator, c.ledger, entry.compressed, entry.signature)
  }

  /** Observe: at most 2f observations; Grace: at least 2f + 1, no reports; Report: at most f reports;
      Final: exactly f + 1; and only verified contributions of distinct ledger members. */
  predicate PhaseInv(c: Config, s: LeaderState) {
    var f := FaultBound(c.ledger);
    && ObservationsOk(c, s.observe) && ReportsOk(c, s.round, s.report)
    && match s.phase
       case None => s.observe == [] && s.report == [] && s.round == 0
       case Some(Observe) => |s.observe| <= 2 * f && s.report == [] && s.round >= 1
       case Some(Grace) => |s.observe| >= 2 * f + 1 && s.report == [] && s.round >= 1
       case Some(ReportPhase) => |s.observe| >= 2 * f + 1 && |s.report| <= f && s.round >= 1
       case Some(FinalPhase) => |s.observe| >= 2 * f + 1 && |s.report| == f + 1 && s.round >= 1
  }

  lemma OnObserveKeepsInv(c: Config, s: LeaderState, input: LeaderInput)
    requires ValidLedger(c.ledger) && PhaseInv(c, s) && input.ObserveMsg?
    ensures PhaseInv(c, OnObserve(c, s, input).state)
  {
    if ObserveOk(c, s, input) {
      var observe := s.observe + [SignedObservation(input.from, input.data, input.signature)];
      forall i | 0 <= i < |s.observe| ensures s.observe[i].oracle != input.from {
        assert s.observe[i].oracle in Oracles(s.observe);
      }
      assert ObservationsOk(c, observe);
    }
  }

  lemma OnReportKeepsInv(c: Config, s: LeaderState, input: LeaderInput)
    requires ValidLedger(c.ledger) && PhaseInv(c, s) && input.ReportMsg?
    ensures PhaseInv(c, OnReport(c, s, input).state)
  {
    if ReportMsgOk(c, s, input) {
      ReportsExtend(c, s.round, s.report, ReportEntry(input.from, input.compressed, input.reportSignature));
    }
  }

  lemma ReportsExtend(c: Config, round: int, report: seq<ReportEntry>, entry: ReportEntry)
    requires ReportsOk(c, round, report)
    requires entry.from in PeerIds(c.ledger) && entry.from !in Senders(report)
    requires entry.compressed.epoch == c.epoch && entry.compressed.round == round
    requires ReportSignatureOk(c.aggregator, c.ledger, entry.compressed, entry.signature)
    ensures ReportsOk(c, round, report + [entry])
  {
    forall i | 0 <= i < |report| ensures report[i].from != entry.from {
      assert report[i].from in Senders(report);
    }
  }

  lemma LeaderReactKeepsInv(c: Config, s: LeaderState, input: LeaderInput)
    requires ValidLedger(c.ledger) && PhaseInv(c, s)
    ensures PhaseInv(c, LeaderReact(c, s, input).state)
  {
    match input
    case ObserveMsg(_, _, _, _, _, _, _) => OnObserveKeepsInv(c, s, input);
    case ReportMsg(_, _, _, _) => OnReportKeepsInv(c, s, input);
    case _ =>
  }

  /** Within a round the phase only advances, and observations are fixed once the report is assembled. */
  predicate Advances(s: LeaderState, t: LeaderState) {
    || (t.round == s.round + 1 && t.phase == Some(Observe))
    || (t.round == s.round && (
          || t == s
          || (s.phase == Some(Observe) && (t.phase == Some(Observe) || t.phase == Some(Grace)) && t.report == s.report)
          || (s.phase == Some(Grace) && t.phase == Some(Grace) && t.report == s.report)
          || (s.phase == Some(Grace) && t == s.(phase := Some(ReportPhase)))
          || (s.phase == Some(ReportPhase) && t.observe == s.observe &&
              (t.phase == Some(ReportPhase) || t.phase == Some(FinalPhase)))))
  }

  lemma LeaderReactAdvances(c: Config, s: LeaderState, input: LeaderInput)
    requires PhaseInv(c, s)
    ensures Advances(s, LeaderReact(c, s, input).state)
  {
  }

  // ----- When each handler acts -----

  /** A round is opened, and nothing kept of the last one, exactly by the round timer and by a startepoch
      event that names this instance's aggregator, epoch and leader. */
  lemma RoundOpensExactly(c: Config, s: LeaderState, input: LeaderInput)
    ensures
      var r := LeaderReact(c, s, input);
      && (r.state.round != s.round <==> input.RoundTimeout? || input == StartEpochEvent(c.aggregator, c.epoch, c.leader))
      && (r.state.round != s.round ==>
          r.state == LeaderState(s.round + 1, [], [], Some(Observe)) &&
          r.out == [BroadcastObserveReq(s.round + 1), RestartRoundTimer])
  {
  }

  /** An observation is added exactly if it is a member's, about the own aggregator, for the own epoch and
      current round, the first of that member, before the request is out, and signed by that member. */
  lemma ObserveExactly(c: Config, s: LeaderState, input: LeaderInput)
    requires ValidLedger(c.ledger) && PhaseInv(c, s) && input.ObserveMsg?
    ensures
      var t := LeaderReact(c, s, input).state;
      if input.from in PeerIds(c.ledger) && input.aggregator == c.aggregator
         && input.epoch == c.epoch && input.round == s.round
         && (forall ob :: ob in s.observe ==> ob.oracle != input.from)
         && (s.phase == Some(Observe) || s.phase == Some(Grace))
         && input.keyKnown && input.signature == PeerSig(input.from, input.data)
      then
        t == s.(observe := s.observe + [SignedObservation(input.from, input.data, input.signature)],
                phase := Some(if |t.observe| > 2 * FaultBound(c.ledger) then Grace else Observe))
      else t == s
  {
    forall ob | ob in s.observe ensures ob.oracle in Oracles(s.observe) {
    }
  }

  /** A report is added exactly if it is a member's, about the own aggregator, for the own epoch and
      current round, the first of that member, while reports are collected, and signed by a ledger oracle
      over its payload. */
  lemma ReportExactly(c: Config, s: LeaderState, input: LeaderInput)
    requires ValidLedger(c.ledger) && PhaseInv(c, s) && input.ReportMsg?
    ensures
      var t := LeaderReact(c, s, input).state;
      var compressed := input.compressed;
      var payload := PayloadOf(c.ledger, compressed.observations, compressed.epoch, compressed.round, c.aggregator);
      if input.from in PeerIds(c.ledger) && input.aggregator == c.aggregator
         && compressed.epoch == c.epoch && compressed.round == s.round
         && (forall entry :: entry in s.report ==> entry.from != input.from) && s.phase == Some(ReportPhase)
         && payload.Some? && SignsMap(c.ledger, payload.value, input.reportSignature)
      then
        t == s.(report := s.report + [ReportEntry(input.from, compressed, input.reportSignature)],
                phase := Some(if |t.report| > FaultBound(c.ledger) then FinalPhase else ReportPhase))
      else t == s
  {
    ReportSignatureExactly(c.aggregator, c.ledger, input.compressed, input.reportSignature);
    forall entry | entry in s.report ensures entry.from in Senders(s.report) {
    }
  }

  /** A report is requested exactly when the grace period ends in the grace phase; it carries all the
      collected observations, each once, in order, under the own epoch and the current round. */
  lemma RequestExactly(c: Config, s: LeaderState, input: LeaderInput)
    ensures
      var out := LeaderReact(c, s, input).out;
      && ((exists report :: BroadcastReportReq(report) in out) <==> input.GraceTimeout? && s.phase == Some(Grace))
      && forall report :: BroadcastReportReq(report) in out ==>
        && report.epoch == c.epoch && report.round == s.round
        && multiset(report.observations) == multiset(s.observe) && SortedByOracle(report.observations)
  {
    SortKeepsAll(s.observe);
    if input.GraceTimeout? && s.phase == Some(Grace) {
      assert LeaderReact(c, s, input).out[0] == BroadcastReportReq(AssembleReport(c, s));
    }
  }

  // ----- Leader reports pass every follower check -----

  lemma {:induction false} DistinctCount(observations: seq<SignedObservation>)
    requires DistinctSigned(observations)
    ensures |Oracles(observations)| == |observations|
  {
    if observations != [] {
      DistinctCount(observations[1..]);
      assert Oracles(observations) == Oracles(observations[1..]) + {observations[0].oracle};
    }
  }

  /** Whatever a leader assembles in its grace phase passes every check a follower makes on a report
      request, at any follower that can resolve the public keys of the ledger's peers. */
  lemma AssembledIsAcceptable(c: Config, s: LeaderState, keys: set<PeerId>)
    requires ValidLedger(c.ledger) && PhaseInv(c, s) && s.phase == Some(Grace)
    requires PeerIds(c.ledger) <= keys
    ensures ReportOk(c.ledger, AssembleReport(c, s), keys)
    ensures DistinctSigned(AssembleReport(c, s).observations)
    ensures Oracles(AssembleReport(c, s).observations) <= PeerIds(c.ledger)
  {
    var sorted := SortByOracle(s.observe);
    assert Oracles(sorted) == Oracles(s.observe);
    DistinctCount(s.observe);
    SizeMeansDistinct(sorted);
  }

  lemma {:induction false} SizeMeansDistinct(observations: seq<SignedObservation>)
    requires |Oracles(observations)| >= |observations|
    ensures DistinctSigned(observations)
  {
    if observations != [] {
      var rest := observations[1..];
      assert Oracles(observations) == Oracles(rest) + {observations[0].oracle};
      OraclesSize(rest);
      SizeMeansDistinct(rest);
      assert observations[0].oracle !in Oracles(rest);
      forall j | 1 <= j < |observations| ensures observations[j].oracle != observations[0].oracle {
        assert observations[j] == rest[j - 1];
        assert rest[j - 1] in rest;
      }
    }
  }

  lemma {:induction false} OraclesSize(observations: seq<SignedObservation>)
    ensures |Oracles(observations)| <= |observations|
  {
    if observations != [] {
      OraclesSize(observations[1..]);
      assert Oracles(observations) == Oracles(observations[1..]) + {observations[0].oracle};
    }
  }

  // ----- Runs of one leader -----

  datatype LeaderRun = LeaderRun(state: LeaderState, log: seq<LeaderOut>)

  function LeaderRunOf(c: Config, inputs: seq<LeaderInput>): LeaderRun {
    if inputs == [] then LeaderRun(LEADER_INITIAL, [])
    else
      var before := LeaderRunOf(c, inputs[..|inputs| - 1]);
      var result := LeaderReact(c, before.state, inputs[|inputs| - 1]);
      LeaderRun(result.state, before.log + result.out)
  }

  datatype Broadcast = ObserveReqKind | ReportReqKind | FinalKind

  predicate IsBroadcast(out: LeaderOut, kind: Broadcast, round: int) {
    match out
    case BroadcastObserveReq(r) => kind == ObserveReqKind && r == round
    case BroadcastReportReq(report) => kind == ReportReqKind && report.round == round
    case BroadcastFinal(attested) => kind == FinalKind && attested.round == round
    case _ => false
  }

  function CountBroadcasts(log: seq<LeaderOut>, kind: Broadcast, round: int): nat {
    if log == [] then 0
    else CountBroadcasts(log[..|log| - 1], kind, round) + if IsBroadcast(log[|log| - 1], kind, round) then 1 else 0
  }

  lemma {:induction false} CountBroadcastsAppend(a: seq<LeaderOut>, b: seq<LeaderOut>, kind: Broadcast, round: int)
    ensures CountBroadcasts(a + b, kind, round) == CountBroadcasts(a, kind, round) + CountBroadcasts(b, kind, round)
  {
    if b == [] {
      assert a + b == a;
    } else {
      assert (a + b)[..|a + b| - 1] == a + b[..|b| - 1];
      CountBroadcastsAppend(a, b[..|b| - 1], kind, round);
    }
  }

  /** How often a round has been broadcast in each kind once the leader is in state `s`. */
  ghost predicate BroadcastCounts(s: LeaderState, log: seq<LeaderOut>, round: int) {
    var requests := CountBroadcasts(log, ReportReqKind, round);
    var finals := CountBroadcasts(log, FinalKind, round);
    && CountBroadcasts(log, ObserveReqKind, round) == (if 1 <= round <= s.round then 1 else 0)
    && finals <= requests <= 1
    && (round > s.round ==> requests == 0)
    && (round == s.round ==>
        (requests == 1 <==> s.phase == Some(ReportPhase) || s.phase == Some(FinalPhase)) &&
        (finals == 1 <==> s.phase == Some(FinalPhase)))
  }

  /** What a handler emits, given the change of state it makes: nothing while the phase stays, and one
      kind of message or timer for each change of phase. */
  predicate Emits(s: LeaderState, t: LeaderState, out: seq<LeaderOut>) {
    if t.round != s.round then
      t.round == s.round + 1 && t.phase == Some(Observe) && out == [BroadcastObserveReq(t.round), RestartRoundTimer]
    else
      || (t.phase == s.phase && out == [])
      || (s.phase == Some(Observe) && t.phase == Some(Grace) && out == [RestartGraceTimer])
      || (s.phase == Some(Grace) && t.phase == Some(ReportPhase) && |out| == 1 &&
          out[0].BroadcastReportReq? && out[0].report.round == s.round)
      || (s.phase == Some(ReportPhase) && t.phase == Some(FinalPhase) && |out| == 1 &&
          out[0].BroadcastFinal? && out[0].attested.round == s.round)
  }

  lemma ReactEmits(c: Config, s: LeaderState, input: LeaderInput)
    requires PhaseInv(c, s)
    ensures Emits(s, LeaderReact(c, s, input).state, LeaderReact(c, s, input).out)
  {
  }

  lemma EmitsCounts(s: LeaderState, t: LeaderState, out: seq<LeaderOut>, log: seq<LeaderOut>, round: int)
    requires 0 <= s.round && BroadcastCounts(s, log, round) && Emits(s, t, out)
    ensures BroadcastCounts(t, log + out, round)
  {
    BroadcastsAfter(log, out, ObserveReqKind, round);
    BroadcastsAfter(log, out, ReportReqKind, round);
    BroadcastsAfter(log, out, FinalKind, round);
  }

  lemma ReactBroadcasts(c: Config, s: LeaderState, input: LeaderInput, log: seq<LeaderOut>, round: int)
    requires PhaseInv(c, s) && 0 <= s.round && BroadcastCounts(s, log, round)
    ensures BroadcastCounts(LeaderReact(c, s, input).state, log + LeaderReact(c, s, input).out, round)
  {
    ReactEmits(c, s, input);
    EmitsCounts(s, LeaderReact(c, s, input).state, LeaderReact(c, s, input).out, log, round);
  }

  lemma BroadcastsAfter(log: seq<LeaderOut>, out: seq<LeaderOut>, kind: Broadcast, round: int)
    requires |out| <= 2
    ensures CountBroadcasts(log + out, kind, round) ==
            CountBroadcasts(log, kind, round)
            + (if |out| > 0 && IsBroadcast(out[0], kind, round) then 1 else 0)
            + if |out| > 1 && IsBroadcast(out[1], kind, round) then 1 else 0
  {
    CountFewBroadcasts(out, kind, round);
    CountBroadcastsAppend(log, out, kind, round);
  }

  lemma CountFewBroadcasts(out: seq<LeaderOut>, kind: Broadcast, round: int)
    requires |out| <= 2
    ensures CountBroadcasts(out, kind, round) ==
            (if |out| > 0 && IsBroadcast(out[0], kind, round) then 1 else 0)
            + if |out| > 1 && IsBroadcast(out[1], kind, round) then 1 else 0
  {
    if |out| == 2 {
      assert CountBroadcasts(out[..1], kind, round) == if IsBroadcast(out[0], kind, round) then 1 else 0;
    }
  }

  /** In every run of a leader: the phase invariant holds, each round broadcasts exactly one observation
      request, at most one report request, and at most one final, after its report request. */
  lemma {:induction false} EveryLeaderRun(c: Config, inputs: seq<LeaderInput>, round: int)
    requires ValidLedger(c.ledger)
    ensures
      var run := LeaderRunOf(c, inputs);
      PhaseInv(c, run.state) && 0 <= run.state.round && BroadcastCounts(run.state, run.log, round)
  {
    if inputs != [] {
      EveryLeaderRun(c, inputs[..|inputs| - 1], round);
      var before := LeaderRunOf(c, inputs[..|inputs| - 1]);
      LeaderReactKeepsInv(c, before.state, inputs[|inputs| - 1]);
      LeaderReactAdvances(c, before.state, inputs[|inputs| - 1]);
      ReactBroadcasts(c, before.state, inputs[|inputs| - 1], before.log, round);
    }
  }

  /** Every report request of every run is acceptable to every follower. */
  lemma {:induction false} EveryReportRequest(c: Config, inputs: seq<LeaderInput>, report: Report, keys: set<PeerId>)
    requires ValidLedger(c.ledger) && PeerIds(c.ledger) <= keys
    requires BroadcastReportReq(report) in LeaderRunOf(c, inputs).log
    ensures report.epoch == c.epoch && ReportOk(c.ledger, report, keys)
    ensures DistinctSigned(report.observations) && Oracles(report.observations) <= PeerIds(c.ledger)
  {
    var last := |inputs| - 1;
    var before := LeaderRunOf(c, inputs[..last]);
    if BroadcastReportReq(report) in before.log {
      EveryReportRequest(c, inputs[..last], report, keys);
    } else {
      EveryLeaderRun(c, inputs[..last], 0);
      RequestIsAcceptable(c, before.state, inputs[last], report, keys);
    }
  }

  lemma RequestIsAcceptable(c: Config, s: LeaderState, input: LeaderInput, report: Report, keys: set<PeerId>)
    requires ValidLedger(c.ledger) && PhaseInv(c, s) && PeerIds(c.ledger) <= keys
    requires BroadcastReportReq(report) in LeaderReact(c, s, input).out
    ensures report.epoch == c.epoch && ReportOk(c.ledger, report, keys)
    ensures DistinctSigned(report.observations) && Oracles(report.observations) <= PeerIds(c.ledger)
  {
    AssembledIsAcceptable(c, s, keys);
  }

  /** The message in which the oracle named by `ob` sent it for the given round. */
  function SentIn(c: Config, round: int, ob: SignedObservation): LeaderInput {
    ObserveMsg(ob.oracle, c.aggregator, c.epoch, round, ob.data, PeerSig(ob.oracle, ob.data), true)
  }

  /** Every collected observation came from its own oracle, signed by it, for the current round. */
  lemma {:induction false} CollectedWasSent(c: Config, inputs: seq<LeaderInput>, ob: SignedObservation)
    requires ValidLedger(c.ledger) && ob in LeaderRunOf(c, inputs).state.observe
    ensures SentIn(c, LeaderRunOf(c, inputs).state.round, ob) in inputs && ob.signature == PeerSig(ob.oracle, ob.data)
  {
    assert inputs != [];
    var last := |inputs| - 1;
    var before := LeaderRunOf(c, inputs[..last]).state;
    EveryLeaderRun(c, inputs[..last], 0);
    ObserveSource(c, before, inputs[last], ob);
    if ob in before.observe && before.round == LeaderRunOf(c, inputs).state.round {
      CollectedWasSent(c, inputs[..last], ob);
      assert inputs[..last] <= inputs;
    }
  }

  lemma ObserveSource(c: Config, s: LeaderState, input: LeaderInput, ob: SignedObservation)
    requires ValidLedger(c.ledger) && PhaseInv(c, s) && ob in LeaderReact(c, s, input).state.observe
    ensures
      var t := LeaderReact(c, s, input).state;
      (ob in s.observe && t.round == s.round) ||
      (input == SentIn(c, t.round, ob) && ob.signature == PeerSig(ob.oracle, ob.data))
  {
    if input.ObserveMsg? {
      ObserveExactly(c, s, input);
    }
  }

  /** In every run, each observation in a report request was sent by the oracle it names, signed, in a
      message for the very epoch and round of the request: none is stale. */
  lemma {:induction false} RequestIsObserved(c: Config, inputs: seq<LeaderInput>, report: Report, ob: SignedObservation)
    requires ValidLedger(c.ledger) && BroadcastReportReq(report) in LeaderRunOf(c, inputs).log
    requires ob in report.observations
    ensures report.epoch == c.epoch && SentIn(c, report.round, ob) in inputs && ob.signature == PeerSig(ob.oracle, ob.data)
  {
    var last := |inputs| - 1;
    var before := LeaderRunOf(c, inputs[..last]);
    if BroadcastReportReq(report) in before.log {
      RequestIsObserved(c, inputs[..last], report, ob);
      assert inputs[..last] <= inputs;
    } else {
      RequestExactly(c, before.state, inputs[last]);
      assert ob in multiset(before.state.observe);
      CollectedWasSent(c, inputs[..last], ob);
    }
  }

  /** Its median stays within the observations of the correct oracles when at most f oracles are faulty. */
  lemma EveryReportMedianRobust(c: Config, inputs: seq<LeaderInput>, report: Report, faulty: set<PeerId>, low: real,
                                high: real)
    requires ValidLedger(c.ledger) && |faulty| <= FaultBound(c.ledger)
    requires BroadcastReportReq(report) in LeaderRunOf(c, inputs).log
    requires CorrectWithin(StripSignatures(report.observations), faulty, low, high)
    ensures
      var median := ComputeMedian(StripSignatures(report.observations));
      median.Some? && low <= median.value <= high
  {
    EveryReportRequest(c, inputs, report, PeerIds(c.ledger));
    DistinctCount(report.observations);
    CorrectMajority(c.ledger, faulty);
    QuorumMedianRobust(StripSignatures(report.observations), faulty, FaultBound(c.ledger), low, high);
  }

  // ----- The final report -----

  function EntryPayload(c: Config, entry: ReportEntry): Option<Payload> {
    PayloadOf(c.ledger, entry.compressed.observations, entry.compressed.epoch, entry.compressed.round, c.aggregator)
  }

  /** `a` is the final of a leader that has collected f + 1 reports. */
  predicate IsFinalOf(c: Config, t: LeaderState, a: AttestedReport) {
    && |t.report| == FaultBound(c.ledger) + 1 && t.report != []
    && a == AttestedReport(c.epoch, t.round, t.report[|t.report| - 1].compressed.observations, SignaturesOf(t.report))
  }

  lemma BroadcastsFinal(c: Config, s: LeaderState, input: LeaderInput, a: AttestedReport)
    requires ValidLedger(c.ledger) && PhaseInv(c, s) && BroadcastFinal(a) in LeaderReact(c, s, input).out
    ensures
      var t := LeaderReact(c, s, input).state;
      && IsFinalOf(c, t, a) && t.round == s.round && t.phase == Some(FinalPhase)
      && input.ReportMsg?
  {
  }

  /** The final is accepted exactly when all its reports have the payload of the last one. */
  lemma FinalVerdict(c: Config, t: LeaderState, a: AttestedReport)
    requires ValidLedger(c.ledger) && ReportsOk(c, t.round, t.report) && IsFinalOf(c, t, a)
    ensures
      AttestedOk(c.aggregator, c.ledger, a) <==>
      forall entry :: entry in t.report ==> EntryPayload(c, entry) == EntryPayload(c, t.report[|t.report| - 1])
  {
    var report := t.report;
    var last := report[|report| - 1];
    assert last in report;
    var payload := EntryPayload(c, last);
    if AttestedOk(c.aggregator, c.ledger, a) {
      forall entry | entry in report ensures EntryPayload(c, entry) == payload {
        var i :| 0 <= i < |report| && report[i] == entry;
        assert a.signatures[i] in a.signatures;
      }
    }
    if forall entry :: entry in report ==> EntryPayload(c, entry) == payload {
      forall signature | signature in a.signatures ensures SignedBy(c.ledger, payload.value, signature) {
        var i :| 0 <= i < |a.signatures| && a.signatures[i] == signature;
        assert report[i] in report;
      }
    }
  }

  /** The attested report a leader broadcasts is accepted by every oracle exactly when all the reports
      it collected for the round have the payload of the last one. */
  lemma FinalAcceptedExactly(c: Config, s: LeaderState, input: LeaderInput, attested: AttestedReport)
    requires ValidLedger(c.ledger) && PhaseInv(c, s)
    requires BroadcastFinal(attested) in LeaderReact(c, s, input).out
    ensures
      var t := LeaderReact(c, s, input).state;
      && |attested.signatures| == FaultBound(c.ledger) + 1 == |t.report|
      && attested.epoch == c.epoch && attested.round == s.round
      && (AttestedOk(c.aggregator, c.ledger, attested) <==>
          forall entry :: entry in t.report ==> EntryPayload(c, entry) == EntryPayload(c, t.report[|t.report| - 1]))
  {
    LeaderReactKeepsInv(c, s, input);
    BroadcastsFinal(c, s, input, attested);
    FinalVerdict(c, LeaderReact(c, s, input).state, attested);
  }

  /** `_onReport` does not compare the signer with the sender. The collected signatures stay by distinct
      oracles exactly as long as no accepted report repeats the signer of an earlier one. */
  lemma SignersStayDistinctExactly(c: Config, s: LeaderState, input: LeaderInput)
    requires input.ReportMsg? && ReportMsgOk(c, s, input) && DistinctSigners(SignaturesOf(s.report))
    ensures DistinctSigners(SignaturesOf(LeaderReact(c, s, input).state.report)) <==>
            input.reportSignature.oracle !in Signers(SignaturesOf(s.report))
  {
    var before, after := SignaturesOf(s.report), SignaturesOf(LeaderReact(c, s, input).state.report);
    assert after == before + [input.reportSignature];
    if input.reportSignature.oracle in Signers(before) {
      var i :| 0 <= i < |before| && before[i].oracle == input.reportSignature.oracle;
      assert after[i].oracle == after[|before|].oracle;
    } else {
      forall i | 0 <= i < |before| ensures before[i].oracle != input.reportSignature.oracle {
        assert before[i] in before;
      }
    }
  }
}
