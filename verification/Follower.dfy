/** One report generation follower: the reaction of each handler, and what every run of it keeps. */
module Follower {
  import opened Options
  import opened Ledger
  import opened Reports
  import opened Contract
  import opened Median

  /** Configuration of a report generation instance; `me` is this oracle's own ledger entry. */
  datatype Config = Config(
    ledger: seq<OracleInfo>, me: OracleInfo, epoch: int, leader: PeerId, aggregator: Address,
    heartbeatSeconds: int, alphaPerThousand: real)

  /** The part of the last report on chain that the deviation test reads. */
  datatype ChainReport = ChainReport(data: real, lastUpdatedAt: int)

  const ROUND_MAX: int := 3

  datatype FollowerState = FollowerState(
    round: int,
    sentEcho: Option<AttestedReport>,
    sentReport: bool,
    completedRound: bool,
    receivedEcho: set<PeerId>)

  const INITIAL := FollowerState(0, None, false, false, {})

  /** A message, with what the handler reads from elsewhere: the fetched observation (undefined when a
      fetch throws), the peers whose public key can be resolved, the chain and the clock. */
  datatype FollowerInput =
    | ObserveReq(from: PeerId, aggregator: Address, round: int, data: Option<real>)
    | ReportReq(from: PeerId, aggregator: Address, report: Report, keys: set<PeerId>, last: Option<ChainReport>, now: int)
    | Final(from: PeerId, aggregator: Address, attested: AttestedReport)
    | FinalEcho(from: PeerId, aggregator: Address, attested: AttestedReport)

  datatype FollowerOut =
    | SendObserve(to: PeerId, epoch: int, round: int, data: real, dataSignature: PeerSig)
    | SendReport(to: PeerId, compressed: CompressedReport, signature: Signature)
    | BroadcastFinalEcho(attested: AttestedReport)
    | Transmit(attested: AttestedReport)
    | Progress
    | ChangeLeader

  datatype FollowerResult = FollowerResult(state: FollowerState, out: seq<FollowerOut>)

  // ----- Checks -----

  predicate SortedByOracle(observations: seq<SignedObservation>) {
    forall i :: 1 <= i < |observations| ==> observations[i - 1].oracle.rank <= observations[i].oracle.rank
  }

  /** The checks of `_onReportReqReceived` on the report itself. */
  predicate ReportOk(ledger: seq<OracleInfo>, report: Report, keys: set<PeerId>) {
    && SortedByOracle(report.observations)
    && |Oracles(report.observations)| >= 2 * FaultBound(ledger) + 1
    && forall ob :: ob in report.observations ==>
      ob.oracle in keys && VerifyPeerSig(ob.oracle, ob.data, ob.signature)
  }

  function Abs(x: real): real {
    if x < 0.0 then -x else x
  }

  /** Relative change above `alpha` per thousand; a change from zero is infinite, zero over zero is not a number. */
  predicate DeviatesBeyond(previous: real, current: real, alpha: real) {
    if previous == 0.0 then current != 0.0
    else 1000.0 * Abs(previous - current) > alpha * Abs(previous)
  }

  /** The band: strictly more than alpha per thousand away from the previous value, whatever its sign. */
  lemma StrictDeviationBand(previous: real, current: real, alpha: real)
    ensures previous > 0.0 ==>
      (DeviatesBeyond(previous, current, alpha) <==>
       current > previous * (1.0 + alpha / 1000.0) || current < previous * (1.0 - alpha / 1000.0))
    ensures previous < 0.0 ==>
      (DeviatesBeyond(previous, current, alpha) <==>
       current < previous * (1.0 + alpha / 1000.0) || current > previous * (1.0 - alpha / 1000.0))
    ensures previous == 0.0 ==> (DeviatesBeyond(previous, current, alpha) <==> current != 0.0)
  {
    var share := alpha / 1000.0;
    assert alpha == 1000.0 * share;
    assert alpha * Abs(previous) == 1000.0 * (share * Abs(previous));
    assert previous * (1.0 + share) == previous + previous * share;
    assert previous * (1.0 - share) == previous - previous * share;
    assert share * Abs(previous) == if previous < 0.0 then -(previous * share) else previous * share;
  }

  predicate ShouldReport(c: Config, report: Report, last: Option<ChainReport>, now: int)
    requires report.observations != []
  {
    || (report.round == 0 && report.epoch == 0)
    || last.None?
    || now - last.value.lastUpdatedAt > c.heartbeatSeconds * 1000
    || DeviatesBeyond(last.value.data, ComputeMedian(StripSignatures(report.observations)).value, c.alphaPerThousand)
  }

  lemma ReportOkNonempty(ledger: seq<OracleInfo>, report: Report, keys: set<PeerId>)
    requires ValidLedger(ledger) && ReportOk(ledger, report, keys)
    ensures report.observations != []
  {
    assert Oracles(report.observations) != {};
    var oracle :| oracle in Oracles(report.observations);
  }

  /** The checks do not exclude repeated oracles: with four oracles, one of which is faulty, a report
      of two correct observations and three of the faulty oracle passes them, and then the bound of
      `MedianRobustExactly` is exceeded. Reports without repetition are robust (`QuorumMedianRobust`). */
  lemma RepeatedOraclePasses(ledger: seq<OracleInfo>, keys: set<PeerId>, a: PeerId, b: PeerId, faulty: PeerId)
    requires ValidLedger(ledger) && |ledger| == 4 && {a, b, faulty} <= keys
    requires a.rank < b.rank < faulty.rank
    ensures
      var ob := (p: PeerId) => SignedObservation(p, 1.0, PeerSig(p, 1.0));
      var report := Report(1, 1, [ob(a), ob(b), ob(faulty), ob(faulty), ob(faulty)]);
      && ReportOk(ledger, report, keys)
      && 2 * FaultyCount(StripSignatures(report.observations), {faulty}) >= |report.observations|
  {
    var ob := (p: PeerId) => SignedObservation(p, 1.0, PeerSig(p, 1.0));
    var observations := [ob(a), ob(b), ob(faulty), ob(faulty), ob(faulty)];
    assert Oracles(observations) == {a, b, faulty};
    var stripped := StripSignatures(observations);
    FaultyTail(stripped, {faulty}, 2);
  }

  /** Observations of faulty oracles from position `k` on all count. */
  lemma {:induction false} FaultyTail(observations: seq<Observation>, faulty: set<PeerId>, k: nat)
    requires k <= |observations|
    requires forall i :: k <= i < |observations| ==> observations[i].oracle in faulty
    ensures FaultyCount(observations, faulty) >= |observations| - k
    decreases |observations|
  {
    if k > 0 {
      FaultyTail(observations[1..], faulty, k - 1);
    } else if observations != [] {
      FaultyTail(observations[1..], faulty, 0);
    }
  }

  function OwnSignature(c: Config, compressed: CompressedReport): Signature {
    Signature(c.me.address,
              SignatureOf(c.me.publicKey, c.ledger, compressed.observations, compressed.epoch, compressed.round, c.aggregator))
  }

  // ----- Handlers -----

  function OnObserveReq(c: Config, s: FollowerState, from: PeerId, aggregator: Address, round: int, data: Option<real>)
    : FollowerResult
  {
    if aggregator != c.aggregator || from != c.leader || round <= s.round || round > ROUND_MAX + 1 then
      FollowerResult(s, [])
    else if round > ROUND_MAX then
      FollowerResult(s.(round := round), [ChangeLeader])
    else
      FollowerResult(
        FollowerState(round, None, false, false, {}),
        if data.None? then []
        else [SendObserve(from, c.epoch, round, data.value, PeerSig(c.me.peerId, data.value))])
  }

  function OnReportReq(c: Config, s: FollowerState, from: PeerId, aggregator: Address, report: Report,
                       keys: set<PeerId>, last: Option<ChainReport>, now: int): FollowerResult
    requires ValidLedger(c.ledger)
  {
    if aggregator != c.aggregator || from != c.leader || !ReportOk(c.ledger, report, keys) then
      FollowerResult(s, [])
    else
      ReportOkNonempty(c.ledger, report, keys);
      if ShouldReport(c, report, last, now) then
        FollowerResult(s.(sentReport := true), [SendReport(from, Compress(report), OwnSignature(c, Compress(report)))])
      else
        FollowerResult(s.(completedRound := true), [Progress])
  }

  function OnFinal(c: Config, s: FollowerState, from: PeerId, aggregator: Address,
                   attested: AttestedReport): FollowerResult {
    if aggregator != c.aggregator || from != c.leader || attested.epoch != c.epoch || attested.round != s.round
       || s.sentEcho.Some? || !AttestedOk(c.aggregator, c.ledger, attested) then
      FollowerResult(s, [])
    else
      FollowerResult(s.(sentEcho := Some(attested)), [BroadcastFinalEcho(attested)])
  }

  /** An echo that passes every check of `_onFinalEchoReceived`. */
  predicate EchoOk(c: Config, s: FollowerState, from: PeerId, aggregator: Address, attested: AttestedReport) {
    && aggregator == c.aggregator && from in PeerIds(c.ledger)
    && attested.epoch == c.epoch && attested.round == s.round
    && from !in s.receivedEcho && !s.completedRound
    && AttestedOk(c.aggregator, c.ledger, attested)
  }

  function OnFinalEcho(c: Config, s: FollowerState, from: PeerId, aggregator: Address,
                       attested: AttestedReport): FollowerResult {
    if !EchoOk(c, s, from, aggregator, attested) then FollowerResult(s, [])
    else
      var received := s.receivedEcho + {from};
      var enough := |received| > FaultBound(c.ledger);
      FollowerResult(
        s.(receivedEcho := received,
           sentEcho := if s.sentEcho.None? then Some(attested) else s.sentEcho,
           completedRound := enough),
        (if s.sentEcho.None? then [BroadcastFinalEcho(attested)] else []) +
        (if enough then [Transmit(attested), Progress] else []))
  }

  function React(c: Config, s: FollowerState, input: FollowerInput): FollowerResult
    requires ValidLedger(c.ledger)
  {
    match input
    case ObserveReq(from, aggregator, round, data) => OnObserveReq(c, s, from, aggregator, round, data)
    case ReportReq(from, aggregator, report, keys, last, now) =>
      OnReportReq(c, s, from, aggregator, report, keys, last, now)
    case Final(from, aggregator, attested) => OnFinal(c, s, from, aggregator, attested)
    case FinalEcho(from, aggregator, attested) => OnFinalEcho(c, s, from, aggregator, attested)
  }

  // ----- When each handler acts -----

  /** Every observation was signed by the oracle it names, with this very value. */
  predicate SelfSigned(observations: seq<SignedObservation>) {
    forall ob :: ob in observations ==> ob.signature == PeerSig(ob.oracle, ob.data)
  }

  /** What a follower has to see in a report before it signs: oracles in order, at least 2f + 1 different
      ones, and every observation signed by its own oracle. */
  predicate Checked(ledger: seq<OracleInfo>, report: Report) {
    && (forall i, j :: 0 <= i < j < |report.observations| ==>
          report.observations[i].oracle.rank <= report.observations[j].oracle.rank)
    && |Oracles(report.observations)| >= 2 * FaultBound(ledger) + 1
    && SelfSigned(report.observations)
  }

  lemma {:induction false} SortedPairs(observations: seq<SignedObservation>, i: nat, j: nat)
    requires SortedByOracle(observations) && i <= j < |observations|
    ensures observations[i].oracle.rank <= observations[j].oracle.rank
  {
    if i < j {
      SortedPairs(observations, i, j - 1);
    }
  }

  lemma ReportOkExactly(ledger: seq<OracleInfo>, report: Report, keys: set<PeerId>)
    ensures ReportOk(ledger, report, keys) <==> Checked(ledger, report) && Oracles(report.observations) <= keys
  {
    if SortedByOracle(report.observations) {
      forall i, j | 0 <= i < j < |report.observations|
        ensures report.observations[i].oracle.rank <= report.observations[j].oracle.rank
      {
        SortedPairs(report.observations, i, j);
      }
    }
    forall ob | ob in report.observations ensures ob.oracle in Oracles(report.observations) {
    }
  }

  /** The report is the very first one, nothing is on chain, what is there is older than the heartbeat, or
      the median has left the band around it. */
  predicate Due(c: Config, report: Report, last: Option<ChainReport>, now: int)
    requires report.observations != []
  {
    var median := ComputeMedian(StripSignatures(report.observations)).value;
    || (report.epoch == 0 && report.round == 0)
    || last == None
    || last.value.lastUpdatedAt + 1000 * c.heartbeatSeconds < now
    || DeviatesBeyond(last.value.data, median, c.alphaPerThousand)
  }

  /** A report request of its own leader, about its own aggregator, is answered exactly if the follower
      knows the keys and the report passes the checks; then with its own signature over that report if
      it is due, and otherwise by completing the round. Anything else changes nothing. */
  lemma ReportReqExactly(c: Config, s: FollowerState, input: FollowerInput)
    requires ValidLedger(c.ledger) && input.ReportReq?
    ensures
      var r := React(c, s, input);
      var compressed := Compress(input.report);
      if input.from == c.leader && input.aggregator == c.aggregator && Checked(c.ledger, input.report)
         && Oracles(input.report.observations) <= input.keys
      then
        input.report.observations != [] &&
        if Due(c, input.report, input.last, input.now) then
          r.state == s.(sentReport := true) && r.out == [SendReport(c.leader, compressed, OwnSignature(c, compressed))]
        else
          r.state == s.(completedRound := true) && r.out == [Progress]
      else
        r == FollowerResult(s, [])
  {
    ReportOkExactly(c.ledger, input.report, input.keys);
    if ReportOk(c.ledger, input.report, input.keys) {
      ReportOkNonempty(c.ledger, input.report, input.keys);
    }
  }

  /** A follower's round changes exactly on an observation request of its own leader, about its own
      aggregator, for a later round that is at most the one after the last; it observes exactly then and
      up to the last round, if it can fetch a price, and asks for a new leader exactly after the last. */
  lemma ObserveReqExactly(c: Config, s: FollowerState, input: FollowerInput)
    requires ValidLedger(c.ledger)
    ensures
      var r := React(c, s, input);
      && (r.state.round != s.round <==>
          input.ObserveReq? && input.from == c.leader && input.aggregator == c.aggregator
          && s.round < input.round <= ROUND_MAX + 1)
      && (r.state.round != s.round ==> r.state.round == input.round)
      && (forall to, epoch, round, data, signature ::
            SendObserve(to, epoch, round, data, signature) in r.out <==>
            r.state.round != s.round && r.state.round <= ROUND_MAX && input.data == Some(data)
            && to == c.leader && epoch == c.epoch && round == r.state.round && signature == PeerSig(c.me.peerId, data))
      && (ChangeLeader in r.out <==> r.state.round != s.round && r.state.round == ROUND_MAX + 1)
  {
    var r := React(c, s, input);
    if input.ObserveReq? && r.out != [] {
      assert r.out == [r.out[0]];
    }
  }

  /** A final is echoed exactly if it is its own leader's, about its own aggregator, of its epoch and
      current round, no echo is remembered, and it verifies; that echo is then remembered. */
  lemma FinalExactly(c: Config, s: FollowerState, input: FollowerInput)
    requires ValidLedger(c.ledger) && input.Final?
    ensures
      var r := React(c, s, input);
      if input.from == c.leader && input.aggregator == c.aggregator && s.sentEcho == None
         && input.attested.epoch == c.epoch && input.attested.round == s.round
         && AttestedOk(c.aggregator, c.ledger, input.attested)
      then r == FollowerResult(s.(sentEcho := Some(input.attested)), [BroadcastFinalEcho(input.attested)])
      else r == FollowerResult(s, [])
  {
  }

  /** An echo is recorded exactly if it is a member's, about the own aggregator, of the own epoch and
      current round, the first of that member, before the round is complete, and verifies. It is then
      broadcast exactly if no echo was remembered, and transmitted, completing the round, exactly if more
      than f are now recorded. */
  lemma FinalEchoExactly(c: Config, s: FollowerState, input: FollowerInput)
    requires ValidLedger(c.ledger) && input.FinalEcho?
    ensures
      var t, out := React(c, s, input).state, React(c, s, input).out;
      if input.from in PeerIds(c.ledger) && input.aggregator == c.aggregator
         && input.attested.epoch == c.epoch && input.attested.round == s.round
         && input.from !in s.receivedEcho && !s.completedRound && AttestedOk(c.aggregator, c.ledger, input.attested)
      then t.receivedEcho == s.receivedEcho + {input.from} && t.sentEcho.Some? && t.sentReport == s.sentReport
           && (if s.sentEcho == None then t.sentEcho == Some(input.attested) else t.sentEcho == s.sentEcho)
           && (t.completedRound <==> |t.receivedEcho| > FaultBound(c.ledger))
           && (forall a :: BroadcastFinalEcho(a) in out <==> s.sentEcho == None && a == input.attested)
           && (forall a :: Transmit(a) in out <==> t.completedRound && a == input.attested)
           && (Progress in out <==> t.completedRound)
      else t == s && out == []
  {
    var r := React(c, s, input);
    var echo := if s.sentEcho.None? then [BroadcastFinalEcho(input.attested)] else [];
    if EchoOk(c, s, input.from, input.aggregator, input.attested) {
      var done := if |s.receivedEcho + {input.from}| > FaultBound(c.ledger) then [Transmit(input.attested), Progress] else [];
      assert r.out == echo + done;
      FewMembers(echo, done, input.attested);
    }
  }

  lemma FewMembers(echo: seq<FollowerOut>, done: seq<FollowerOut>, a: AttestedReport)
    requires echo == [] || echo == [BroadcastFinalEcho(a)]
    requires done == [] || done == [Transmit(a), Progress]
    ensures forall x :: BroadcastFinalEcho(x) in echo + done <==> echo != [] && x == a
    ensures forall x :: Transmit(x) in echo + done <==> done != [] && x == a
    ensures Progress in echo + done <==> done != []
  {
    if echo != [] {
      assert (echo + done)[0] == BroadcastFinalEcho(a);
    }
    if done != [] {
      assert (echo + done)[|echo|] == Transmit(a) && (echo + done)[|echo| + 1] == Progress;
    }
  }

  // ----- Runs of one follower -----

  datatype Kind = KObserve | KReport | KEcho | KTransmit | KProgress | KChangeLeader

  function KindOf(out: FollowerOut): Kind {
    match out
    case SendObserve(_, _, _, _, _) => KObserve
    case SendReport(_, _, _) => KReport
    case BroadcastFinalEcho(_) => KEcho
    case Transmit(_) => KTransmit
    case Progress => KProgress
    case ChangeLeader => KChangeLeader
  }

  /** What was emitted, with the round the follower was in when it had handled the message. */
  datatype Logged = Logged(round: int, out: FollowerOut)

  function Tagged(round: int, out: seq<FollowerOut>): (log: seq<Logged>)
    ensures |log| == |out| && forall i :: 0 <= i < |log| ==> log[i] == Logged(round, out[i])
  {
    seq(|out|, i requires 0 <= i < |out| => Logged(round, out[i]))
  }

  datatype Run = Run(state: FollowerState, log: seq<Logged>)

  function RunOf(c: Config, inputs: seq<FollowerInput>): Run
    requires ValidLedger(c.ledger)
  {
    if inputs == [] then Run(INITIAL, [])
    else
      var before := RunOf(c, inputs[..|inputs| - 1]);
      var result := React(c, before.state, inputs[|inputs| - 1]);
      Run(result.state, before.log + Tagged(result.state.round, result.out))
  }

  function Count(log: seq<Logged>, kind: Kind, round: int): nat {
    if log == [] then 0
    else Count(log[..|log| - 1], kind, round)
         + if log[|log| - 1].round == round && KindOf(log[|log| - 1].out) == kind then 1 else 0
  }

  lemma {:induction false} CountAppend(a: seq<Logged>, b: seq<Logged>, kind: Kind, round: int)
    ensures Count(a + b, kind, round) == Count(a, kind, round) + Count(b, kind, round)
  {
    if b == [] {
      assert a + b == a;
    } else {
      assert (a + b)[..|a + b| - 1] == a + b[..|b| - 1];
      CountAppend(a, b[..|b| - 1], kind, round);
    }
  }

  function CountOut(out: seq<FollowerOut>, kind: Kind): nat {
    if out == [] then 0
    else CountOut(out[..|out| - 1], kind) + if KindOf(out[|out| - 1]) == kind then 1 else 0
  }

  lemma {:induction false} CountTagged(out: seq<FollowerOut>, kind: Kind, at: int, round: int)
    ensures Count(Tagged(at, out), kind, round) == if at == round then CountOut(out, kind) else 0
  {
    if out != [] {
      CountTagged(out[..|out| - 1], kind, at, round);
      assert Tagged(at, out)[..|out| - 1] == Tagged(at, out[..|out| - 1]);
    }
  }

  /** Per round: at most one observation, one echo and one transmission; `changeLeader` only in the round
      after the last. In the current round, up to the last one, an echo has been broadcast exactly if
      `sentEcho` is set, and the report transmitted exactly if more than f echoes are recorded. */
  ghost predicate RoundCounts(f: int, run: Run, round: int) {
    var s := run.state;
    var echoes, transmissions := Count(run.log, KEcho, round), Count(run.log, KTransmit, round);
    && Count(run.log, KObserve, round) <= (if 1 <= round <= ROUND_MAX && round <= s.round then 1 else 0)
    && Count(run.log, KChangeLeader, round) == (if round == ROUND_MAX + 1 && round == s.round then 1 else 0)
    && echoes <= 1 && transmissions <= 1
    && (round > s.round ==> echoes == transmissions == 0)
    && (round == s.round ==> (echoes == 1 ==> s.sentEcho.Some?) && (transmissions == 1 ==> |s.receivedEcho| > f))
    && (round == s.round <= ROUND_MAX ==>
        (echoes == 1 <==> s.sentEcho.Some?) && (transmissions == 1 <==> |s.receivedEcho| > f))
  }

  /** More than f recorded echoes complete the round. */
  predicate EchoesComplete(f: int, s: FollowerState) {
    |s.receivedEcho| > f ==> s.completedRound
  }

  ghost predicate RunInv(f: int, run: Run) {
    && 0 <= run.state.round <= ROUND_MAX + 1
    && EchoesComplete(f, run.state)
    && forall round :: RoundCounts(f, run, round)
  }

  lemma {:induction false} CountOutAppend(a: seq<FollowerOut>, b: seq<FollowerOut>, kind: Kind)
    ensures CountOut(a + b, kind) == CountOut(a, kind) + CountOut(b, kind)
  {
    if b == [] {
      assert a + b == a;
    } else {
      assert (a + b)[..|a + b| - 1] == a + b[..|b| - 1];
      CountOutAppend(a, b[..|b| - 1], kind);
    }
  }

  lemma CountOutFew(a: FollowerOut, b: FollowerOut, kind: Kind)
    ensures CountOut([], kind) == 0
    ensures CountOut([a], kind) == if KindOf(a) == kind then 1 else 0
    ensures CountOut([a, b], kind) == (if KindOf(a) == kind then 1 else 0) + if KindOf(b) == kind then 1 else 0
  {
    assert [a, b] == [a] + [b];
    CountOutAppend([a], [b], kind);
  }

  /** How many outputs of a kind a reaction has, given the change of state it makes. */
  ghost predicate CountAllowed(f: int, s: FollowerState, r: FollowerResult, kind: Kind) {
    var t := r.state;
    match kind
    case KObserve => CountOut(r.out, kind) <= (if s.round < t.round <= ROUND_MAX then 1 else 0)
    case KChangeLeader => CountOut(r.out, kind) == (if s.round < t.round && t.round == ROUND_MAX + 1 then 1 else 0)
    case KEcho =>
      CountOut(r.out, kind) == (if t.round == s.round && s.sentEcho.None? && t.sentEcho.Some? then 1 else 0)
    case KTransmit =>
      CountOut(r.out, kind) == (if t.round == s.round && |s.receivedEcho| <= f < |t.receivedEcho| then 1 else 0)
    case _ => true
  }

  lemma EchoCounts(c: Config, s: FollowerState, from: PeerId, aggregator: Address, attested: AttestedReport, kind: Kind)
    requires EchoesComplete(FaultBound(c.ledger), s)
    ensures CountAllowed(FaultBound(c.ledger), s, OnFinalEcho(c, s, from, aggregator, attested), kind)
  {
    var echo, done := BroadcastFinalEcho(attested), Transmit(attested);
    CountOutFew(echo, echo, kind);
    CountOutFew(done, Progress, kind);
    if EchoOk(c, s, from, aggregator, attested) {
      CountOutAppend(if s.sentEcho.None? then [echo] else [],
                     if |s.receivedEcho + {from}| > FaultBound(c.ledger) then [done, Progress] else [], kind);
    }
  }

  lemma ReactCounts(c: Config, s: FollowerState, input: FollowerInput, kind: Kind)
    requires ValidLedger(c.ledger) && EchoesComplete(FaultBound(c.ledger), s)
    ensures CountAllowed(FaultBound(c.ledger), s, React(c, s, input), kind)
  {
    var r := React(c, s, input);
    if input.FinalEcho? {
      EchoCounts(c, s, input.from, input.aggregator, input.attested, kind);
    } else if r.out == [] {
      CountOutFew(Progress, Progress, kind);
    } else {
      CountOutFew(r.out[0], r.out[0], kind);
      assert r.out == [r.out[0]];
    }
  }

  /** Within a round nothing recorded is forgotten; a later round up to the last starts afresh. */
  predicate RoundMoves(s: FollowerState, t: FollowerState) {
    if s.round == t.round then
      (s.sentEcho.Some? ==> t.sentEcho == s.sentEcho) && (s.completedRound ==> t.completedRound) &&
      |s.receivedEcho| <= |t.receivedEcho| && s.receivedEcho <= t.receivedEcho
    else
      && s.round < t.round <= ROUND_MAX + 1
      && (t.round <= ROUND_MAX ==> t.sentEcho.None? && !t.completedRound && t.receivedEcho == {})
  }

  lemma ReactRound(c: Config, s: FollowerState, input: FollowerInput)
    requires ValidLedger(c.ledger)
    ensures RoundMoves(s, React(c, s, input).state)
    ensures EchoesComplete(FaultBound(c.ledger), s) ==> EchoesComplete(FaultBound(c.ledger), React(c, s, input).state)
  {
  }

  lemma StepKeepsCounts(c: Config, before: Run, input: FollowerInput, round: int)
    requires ValidLedger(c.ledger) && RunInv(FaultBound(c.ledger), before)
    ensures
      var result := React(c, before.state, input);
      RoundCounts(FaultBound(c.ledger), Run(result.state, before.log + Tagged(result.state.round, result.out)), round)
  {
    var f, result := FaultBound(c.ledger), React(c, before.state, input);
    ReactRound(c, before.state, input);
    assert RoundCounts(f, before, round);
    forall kind ensures CountAllowed(f, before.state, result, kind) {
      ReactCounts(c, before.state, input, kind);
    }
    CountsStep(f, before, result, round);
  }

  lemma CountsStep(f: nat, before: Run, result: FollowerResult, round: int)
    requires RoundCounts(f, before, round) && 0 <= before.state.round
    requires RoundMoves(before.state, result.state)
    requires forall kind :: CountAllowed(f, before.state, result, kind)
    ensures RoundCounts(f, Run(result.state, before.log + Tagged(result.state.round, result.out)), round)
  {
    assert CountAllowed(f, before.state, result, KObserve) && CountAllowed(f, before.state, result, KChangeLeader);
    assert CountAllowed(f, before.state, result, KEcho) && CountAllowed(f, before.state, result, KTransmit);
    StepCount(before, result, KObserve, round);
    StepCount(before, result, KChangeLeader, round);
    StepCount(before, result, KEcho, round);
    StepCount(before, result, KTransmit, round);
  }

  lemma StepCount(before: Run, result: FollowerResult, kind: Kind, round: int)
    ensures
      Count(before.log + Tagged(result.state.round, result.out), kind, round) ==
      Count(before.log, kind, round) + if result.state.round == round then CountOut(result.out, kind) else 0
  {
    CountAppend(before.log, Tagged(result.state.round, result.out), kind, round);
    CountTagged(result.out, kind, result.state.round, round);
  }

  /** In every run: rounds stay within 0 and the round after the last; each round sends at most one
      observation, broadcasts at most one echo and transmits at most once; the current round, up to the
      last, has broadcast an echo exactly if `sentEcho` is set and transmitted exactly if more than f
      echoes are recorded; the leader change is requested exactly once, in the round after the last. */
  lemma {:induction false} EveryRunCounts(c: Config, inputs: seq<FollowerInput>)
    requires ValidLedger(c.ledger)
    ensures RunInv(FaultBound(c.ledger), RunOf(c, inputs))
  {
    if inputs != [] {
      var before := RunOf(c, inputs[..|inputs| - 1]);
      var input := inputs[|inputs| - 1];
      EveryRunCounts(c, inputs[..|inputs| - 1]);
      ReactRound(c, before.state, input);
      forall round ensures RoundCounts(FaultBound(c.ledger), RunOf(c, inputs), round) {
        StepKeepsCounts(c, before, input, round);
      }
    }
  }

  /** Rounds never decrease, and each accepted observation request strictly raises the round, so an
      instance accepts at most ROUND_MAX + 1 of them. */
  lemma {:induction false} RoundsIncrease(c: Config, inputs: seq<FollowerInput>, k: nat)
    requires ValidLedger(c.ledger) && k < |inputs|
    ensures
      var s, t := RunOf(c, inputs[..k]).state, RunOf(c, inputs[..k + 1]).state;
      && 0 <= s.round <= t.round <= ROUND_MAX + 1
      && (inputs[k].ObserveReq? && s != t ==> s.round < t.round)
  {
    assert inputs[..k + 1][..k] == inputs[..k];
    EveryRunCounts(c, inputs[..k]);
    ReactRound(c, RunOf(c, inputs[..k]).state, inputs[k]);
  }

  function CountAll(log: seq<Logged>, kind: Kind): nat {
    if log == [] then 0
    else CountAll(log[..|log| - 1], kind) + if KindOf(log[|log| - 1].out) == kind then 1 else 0
  }

  lemma {:induction false} CountAllTagged(log: seq<Logged>, out: seq<FollowerOut>, round: int, kind: Kind)
    ensures CountAll(log + Tagged(round, out), kind) == CountAll(log, kind) + CountOut(out, kind)
  {
    if out == [] {
      assert log + Tagged(round, out) == log;
    } else {
      var rest := out[..|out| - 1];
      assert (log + Tagged(round, out))[..|log| + |rest|] == log + Tagged(round, rest);
      CountAllTagged(log, rest, round, kind);
    }
  }

  /** Over its whole life an instance sends at most one observation for each of its three rounds, and
      requests one leader change, on reaching round 4. */
  lemma {:induction false} EveryRunTotals(c: Config, inputs: seq<FollowerInput>)
    requires ValidLedger(c.ledger)
    ensures
      var run := RunOf(c, inputs);
      && CountAll(run.log, KObserve) <= (if run.state.round <= 3 then run.state.round else 3)
      && CountAll(run.log, KChangeLeader) == (if run.state.round == 4 then 1 else 0)
  {
    if inputs != [] {
      var before, input := RunOf(c, inputs[..|inputs| - 1]), inputs[|inputs| - 1];
      EveryRunTotals(c, inputs[..|inputs| - 1]);
      EveryRunCounts(c, inputs[..|inputs| - 1]);
      var result := React(c, before.state, input);
      ReactRound(c, before.state, input);
      ReactCounts(c, before.state, input, KObserve);
      ReactCounts(c, before.state, input, KChangeLeader);
      CountAllTagged(before.log, result.out, result.state.round, KObserve);
      CountAllTagged(before.log, result.out, result.state.round, KChangeLeader);
    }
  }

  // ----- Evidence for a transmission -----

  /** Input `i` is an echo of `p` that the follower verified and recorded. */
  ghost predicate Records(c: Config, inputs: seq<FollowerInput>, i: nat, p: PeerId)
    requires ValidLedger(c.ledger) && i < |inputs|
  {
    && inputs[i].FinalEcho? && inputs[i].from == p
    && EchoOk(c, RunOf(c, inputs[..i]).state, p, inputs[i].aggregator, inputs[i].attested)
  }

  /** A verified echo of `p` for the given round was recorded. */
  ghost predicate RecordedFor(c: Config, inputs: seq<FollowerInput>, round: int, p: PeerId)
    requires ValidLedger(c.ledger)
  {
    exists i: nat :: i < |inputs| && Records(c, inputs, i, p) && inputs[i].attested.round == round
  }

  /** The echoes already recorded when the current round was entered. */
  ghost function EnteredWith(c: Config, inputs: seq<FollowerInput>): set<PeerId>
    requires ValidLedger(c.ledger)
  {
    if inputs == [] then {}
    else
      var before, after := RunOf(c, inputs[..|inputs| - 1]).state, RunOf(c, inputs).state;
      if before.round == after.round then EnteredWith(c, inputs[..|inputs| - 1]) else after.receivedEcho
  }

  lemma RecordedForStep(c: Config, inputs: seq<FollowerInput>, round: int, p: PeerId)
    requires ValidLedger(c.ledger) && inputs != []
    ensures
      var last := |inputs| - 1;
      RecordedFor(c, inputs, round, p) <==>
      RecordedFor(c, inputs[..last], round, p) || (Records(c, inputs, last, p) && inputs[last].attested.round == round)
  {
    var last := |inputs| - 1;
    forall i: nat | i < last ensures inputs[..last][i] == inputs[i] && inputs[..last][..i] == inputs[..i] {
    }
    if RecordedFor(c, inputs[..last], round, p) {
      var i: nat :| i < last && Records(c, inputs[..last], i, p) && inputs[..last][i].attested.round == round;
      assert Records(c, inputs, i, p);
    }
    if RecordedFor(c, inputs, round, p) {
      var i: nat :| i < |inputs| && Records(c, inputs, i, p) && inputs[i].attested.round == round;
      assert i < last ==> Records(c, inputs[..last], i, p);
    }
  }

  /** What one input does to the recorded echoes. */
  lemma ReactRecords(c: Config, s: FollowerState, input: FollowerInput, p: PeerId)
    requires ValidLedger(c.ledger)
    ensures
      var t := React(c, s, input).state;
      && (s.round != t.round ==> input.ObserveReq? && (t.receivedEcho == {} || t.receivedEcho == s.receivedEcho))
      && (s.round == t.round ==> s.receivedEcho <= t.receivedEcho)
      && (s.round == t.round && p in t.receivedEcho && p !in s.receivedEcho ==>
          input.FinalEcho? && input.from == p && EchoOk(c, s, p, input.aggregator, input.attested))
      && (s.round <= t.round && (s.round < t.round <= ROUND_MAX ==> t.receivedEcho == {}))
  {
  }

  /** A recorded echo was verified for the current round, unless it was carried over on entering it;
      only the round after the last is entered with recorded echoes. */
  lemma {:induction false} RecordedEchoes(c: Config, inputs: seq<FollowerInput>, p: PeerId)
    requires ValidLedger(c.ledger)
    ensures
      var s, carried := RunOf(c, inputs).state, EnteredWith(c, inputs);
      && carried <= s.receivedEcho && (s.round <= ROUND_MAX ==> carried == {})
      && (p in s.receivedEcho ==> p in PeerIds(c.ledger) && (RecordedFor(c, inputs, s.round, p) <==> p !in carried))
      && (p in carried ==> exists earlier :: earlier < s.round && RecordedFor(c, inputs, earlier, p))
      && forall round :: RecordedFor(c, inputs, round, p) ==> round <= s.round
  {
    if inputs != [] {
      var last := |inputs| - 1;
      RecordedEchoes(c, inputs[..last], p);
      forall round ensures
        RecordedFor(c, inputs, round, p) <==>
        RecordedFor(c, inputs[..last], round, p) || (Records(c, inputs, last, p) && inputs[last].attested.round == round)
      {
        RecordedForStep(c, inputs, round, p);
      }
      RecordedStep(c, inputs, p);
    }
  }

  lemma RecordedStep(c: Config, inputs: seq<FollowerInput>, p: PeerId)
    requires ValidLedger(c.ledger) && inputs != []
    requires
      var before := inputs[..|inputs| - 1];
      var s, carried := RunOf(c, before).state, EnteredWith(c, before);
      && carried <= s.receivedEcho && (s.round <= ROUND_MAX ==> carried == {})
      && (p in s.receivedEcho ==> p in PeerIds(c.ledger) && (RecordedFor(c, before, s.round, p) <==> p !in carried))
      && (p in carried ==> exists earlier :: earlier < s.round && RecordedFor(c, before, earlier, p))
      && forall round :: RecordedFor(c, before, round, p) ==> round <= s.round
    requires forall round ::
      RecordedFor(c, inputs, round, p) <==>
      RecordedFor(c, inputs[..|inputs| - 1], round, p)
      || (Records(c, inputs, |inputs| - 1, p) && inputs[|inputs| - 1].attested.round == round)
    ensures
      var s, carried := RunOf(c, inputs).state, EnteredWith(c, inputs);
      && carried <= s.receivedEcho && (s.round <= ROUND_MAX ==> carried == {})
      && (p in s.receivedEcho ==> p in PeerIds(c.ledger) && (RecordedFor(c, inputs, s.round, p) <==> p !in carried))
      && (p in carried ==> exists earlier :: earlier < s.round && RecordedFor(c, inputs, earlier, p))
      && forall round :: RecordedFor(c, inputs, round, p) ==> round <= s.round
  {
    var last := |inputs| - 1;
    var s, t := RunOf(c, inputs[..last]).state, RunOf(c, inputs).state;
    ReactRecords(c, s, inputs[last], p);
    if p in EnteredWith(c, inputs) {
      if p in EnteredWith(c, inputs[..last]) {
        var earlier :| earlier < s.round && RecordedFor(c, inputs[..last], earlier, p);
        assert RecordedFor(c, inputs, earlier, p);
      } else {
        assert RecordedFor(c, inputs, s.round, p);
      }
    }
  }

  /** A reaction that transmits leaves more than f recorded echoes, the transmitted report's among them. */
  lemma TransmitState(c: Config, s: FollowerState, input: FollowerInput, attested: AttestedReport)
    requires ValidLedger(c.ledger) && Transmit(attested) in React(c, s, input).out
    ensures
      var t := React(c, s, input).state;
      && |t.receivedEcho| > FaultBound(c.ledger) && t.round == s.round == attested.round
      && attested.epoch == c.epoch && AttestedOk(c.aggregator, c.ledger, attested)
  {
  }

  /** Behind every transmission are recorded echoes of more than f ledger members, and all of them are
      of the transmitted report's own epoch and round exactly when none was carried over on entering
      that round, which only happens on entering the round after the last. */
  lemma TransmitEvidenceExactly(c: Config, inputs: seq<FollowerInput>, attested: AttestedReport)
    requires ValidLedger(c.ledger) && inputs != []
    requires Transmit(attested) in React(c, RunOf(c, inputs[..|inputs| - 1]).state, inputs[|inputs| - 1]).out
    ensures
      var echoers, carried := RunOf(c, inputs).state.receivedEcho, EnteredWith(c, inputs);
      && |echoers| > FaultBound(c.ledger) && echoers <= PeerIds(c.ledger)
      && attested.epoch == c.epoch && AttestedOk(c.aggregator, c.ledger, attested)
      && (forall p :: p in echoers - carried ==> RecordedFor(c, inputs, attested.round, p))
      && ((forall p :: p in echoers ==> RecordedFor(c, inputs, attested.round, p)) <==> carried == {})
      && (attested.round <= ROUND_MAX ==> carried == {})
  {
    TransmitState(c, RunOf(c, inputs[..|inputs| - 1]).state, inputs[|inputs| - 1], attested);
    var echoers, carried := RunOf(c, inputs).state.receivedEcho, EnteredWith(c, inputs);
    RecordedEchoes(c, inputs, c.leader);
    forall p | p in echoers
      ensures p in PeerIds(c.ledger) && (RecordedFor(c, inputs, attested.round, p) <==> p !in carried)
    {
      RecordedEchoes(c, inputs, p);
    }
    if carried != {} {
      var p :| p in carried;
    }
  }

  /** With four oracles: round 3, an echo of it from `x`, round 4, an echo of it from `y`. The follower
      transmits the report of round 4 with one echo of that round, although f = 1. */
  lemma CarriedEchoWitness(c: Config, x: OracleInfo, y: OracleInfo) returns (inputs: seq<FollowerInput>,
                           late: AttestedReport)
    requires ValidLedger(c.ledger) && |c.ledger| == 4 && x in c.ledger && y in c.ledger && x != y
    ensures |inputs| == 4 && late.round == ROUND_MAX + 1
    ensures Transmit(late) in React(c, RunOf(c, inputs[..3]).state, inputs[3]).out
    ensures forall p :: RecordedFor(c, inputs, late.round, p) ==> p == y.peerId
  {
    var early := SelfAttested(c.ledger, x, [], c.epoch, ROUND_MAX, c.aggregator);
    late := SelfAttested(c.ledger, y, [], c.epoch, ROUND_MAX + 1, c.aggregator);
    SelfAttestedAccepted(c.ledger, x, [], c.epoch, ROUND_MAX, c.aggregator);
    SelfAttestedAccepted(c.ledger, y, [], c.epoch, ROUND_MAX + 1, c.aggregator);
    LookupsAgree(c.ledger, x);
    LookupsAgree(c.ledger, y);
    inputs := [ObserveReq(c.leader, c.aggregator, ROUND_MAX, None), FinalEcho(x.peerId, c.aggregator, early),
               ObserveReq(c.leader, c.aggregator, ROUND_MAX + 1, None), FinalEcho(y.peerId, c.aggregator, late)];
    CarriedState(c, x.peerId, early);
    assert inputs[..3] == [inputs[0], inputs[1], inputs[2]];
    CarriedTransmits(c, x.peerId, y.peerId, early, late);
    forall p, i: nat | i < 4 && Records(c, inputs, i, p) && inputs[i].attested.round == late.round ensures p == y.peerId {
    }
  }

  lemma CarriedState(c: Config, x: PeerId, early: AttestedReport)
    requires ValidLedger(c.ledger) && |c.ledger| == 4 && x in PeerIds(c.ledger)
    requires AttestedOk(c.aggregator, c.ledger, early) && early.epoch == c.epoch && early.round == ROUND_MAX
    ensures
      RunOf(c, [ObserveReq(c.leader, c.aggregator, ROUND_MAX, None), FinalEcho(x, c.aggregator, early),
                ObserveReq(c.leader, c.aggregator, ROUND_MAX + 1, None)]).state
      == FollowerState(ROUND_MAX + 1, Some(early), false, false, {x})
  {
    var first, second := ObserveReq(c.leader, c.aggregator, ROUND_MAX, None), FinalEcho(x, c.aggregator, early);
    var third := ObserveReq(c.leader, c.aggregator, ROUND_MAX + 1, None);
    assert [first, second, third][..2] == [first, second] && [first, second][..1] == [first] && [first][..0] == [];
    assert RunOf(c, []) == Run(INITIAL, []);
    assert RunOf(c, [first]).state == FollowerState(ROUND_MAX, None, false, false, {});
    assert {} + {x} == {x};
    assert RunOf(c, [first, second]).state == FollowerState(ROUND_MAX, Some(early), false, false, {x});
  }

  lemma CarriedTransmits(c: Config, x: PeerId, y: PeerId, early: AttestedReport, late: AttestedReport)
    requires ValidLedger(c.ledger) && |c.ledger| == 4 && y in PeerIds(c.ledger) && x != y
    requires AttestedOk(c.aggregator, c.ledger, late) && late.epoch == c.epoch && late.round == ROUND_MAX + 1
    ensures
      Transmit(late) in
      React(c, FollowerState(ROUND_MAX + 1, Some(early), false, false, {x}), FinalEcho(y, c.aggregator, late)).out
  {
    var s := FollowerState(ROUND_MAX + 1, Some(early), false, false, {x});
    assert EchoOk(c, s, y, c.aggregator, late);
    assert |{x} + {y}| == 2;
    assert React(c, s, FinalEcho(y, c.aggregator, late)).out[0] == Transmit(late);
  }
}
