/** Building, signing, verifying and submitting the payload of a report. */
module Contract {
  import opened Options
  import opened Ledger
  import opened Reports

  /** The address-to-entry map of a report; undefined when an observation names a peer outside the
      ledger. A later observation of the same oracle replaces an earlier one. */
  function PayloadOf(ledger: seq<OracleInfo>, observations: seq<Observation>,
                     epoch: int, round: int, aggregator: Address): (payload: Option<Payload>)
    ensures payload.Some? <==> forall ob :: ob in observations ==> ob.oracle in PeerIds(ledger)
  {
    if observations == [] then Some(map[])
    else
      var last := |observations| - 1;
      var ob := observations[last];
      assert observations == observations[..last] + [ob];
      match (PayloadOf(ledger, observations[..last], epoch, round, aggregator), FindByPeer(ledger, ob.oracle))
      case (Some(payload), Some(info)) => Some(payload[info.address := Entry(ob.data, epoch, round, aggregator)])
      case _ => None
  }

  /** The payload holds, for each ledger oracle observed, its last observation, and nothing else. */
  lemma {:induction false} PayloadContents(ledger: seq<OracleInfo>, observations: seq<Observation>,
                                           epoch: int, round: int, aggregator: Address, info: OracleInfo)
    requires ValidLedger(ledger) && info in ledger
    requires PayloadOf(ledger, observations, epoch, round, aggregator).Some?
    ensures
      var payload := PayloadOf(ledger, observations, epoch, round, aggregator).value;
      if info.address in payload then
        exists i :: 0 <= i < |observations| && observations[i].oracle == info.peerId
                    && payload[info.address] == Entry(observations[i].data, epoch, round, aggregator)
                    && forall j :: i < j < |observations| ==> observations[j].oracle != info.peerId
      else
        forall j :: 0 <= j < |observations| ==> observations[j].oracle != info.peerId
  {
    if observations != [] {
      var last := |observations| - 1;
      var rest, ob := observations[..last], observations[last];
      PayloadContents(ledger, rest, epoch, round, aggregator, info);
      var found := FindByPeer(ledger, ob.oracle).value;
      LookupsAgree(ledger, info);
      if ob.oracle == info.peerId {
        assert observations[last].oracle == info.peerId;
      } else {
        LookupsAgree(ledger, found);
        assert found.address != info.address;
        var before := PayloadOf(ledger, rest, epoch, round, aggregator).value;
        if info.address in before {
          var i :| 0 <= i < |rest| && rest[i].oracle == info.peerId
                   && before[info.address] == Entry(rest[i].data, epoch, round, aggregator)
                   && forall j :: i < j < |rest| ==> rest[j].oracle != info.peerId;
          assert observations[i] == rest[i];
          forall j | i < j < |observations| ensures observations[j].oracle != info.peerId {
            if j < last { assert observations[j] == rest[j]; }
          }
        } else {
          forall j | 0 <= j < |observations| ensures observations[j].oracle != info.peerId {
            if j < last { assert observations[j] == rest[j]; }
          }
        }
      }
    }
  }

  // ----- The five places that build the map -----

  /** `_packReport`: throws, here `None`, on an unknown oracle. */
  method PackReport(aggregator: Address, ledger: seq<OracleInfo>, report: AttestedReport)
    returns (packed: Option<Payload>)
    ensures packed == PayloadOf(ledger, report.observations, report.epoch, report.round, aggregator)
  {
    var responses: Payload := map[];
    for i := 0 to |report.observations|
      invariant PayloadOf(ledger, report.observations[..i], report.epoch, report.round, aggregator) == Some(responses)
    {
      var ob := report.observations[i];
      assert ob in report.observations;
      assert report.observations[..i + 1][..i] == report.observations[..i];
      var infos := FindByPeer(ledger, ob.oracle);
      if infos == None {
        return None;
      }
      responses := responses[infos.value.address := Entry(ob.data, report.epoch, report.round, aggregator)];
    }
    assert report.observations[..|report.observations|] == report.observations;
    return Some(responses);
  }

  /** What `signCompressedReport` returns for an oracle holding `key`. */
  function SignatureOf(key: PublicKey, ledger: seq<OracleInfo>, observations: seq<Observation>,
                       epoch: int, round: int, aggregator: Address): SigValue {
    match PayloadOf(ledger, observations, epoch, round, aggregator)
    case None => EmptySig
    case Some(payload) => Signed(key, payload)
  }

  method SignCompressedReport(key: PublicKey, aggregator: Address, ledger: seq<OracleInfo>,
                              observations: seq<Observation>, epoch: int, round: int)
    returns (signature: SigValue)
    ensures signature == SignatureOf(key, ledger, observations, epoch, round, aggregator)
  {
    var responses: Payload := map[];
    for i := 0 to |observations|
      invariant PayloadOf(ledger, observations[..i], epoch, round, aggregator) == Some(responses)
    {
      var ob := observations[i];
      assert ob in observations;
      assert observations[..i + 1][..i] == observations[..i];
      var infos := FindByPeer(ledger, ob.oracle);
      if infos == None {
        return EmptySig;
      }
      responses := responses[infos.value.address := Entry(ob.data, epoch, round, aggregator)];
    }
    assert observations[..|observations|] == observations;
    return Signed(key, responses);
  }

  /** A signature verifies when it is by the named ledger oracle over the report's own payload. */
  predicate ReportSignatureOk(aggregator: Address, ledger: seq<OracleInfo>, report: CompressedReport,
                              signature: Signature) {
    var payload := PayloadOf(ledger, report.observations, report.epoch, report.round, aggregator);
    var info := FindByAddress(ledger, signature.oracle);
    payload.Some? && info.Some? && VerifySig(payload.value, info.value.publicKey, signature.value)
  }

  method VerifyReportSignature(aggregator: Address, ledger: seq<OracleInfo>, report: CompressedReport,
                               signature: Signature)
    returns (ok: bool)
    ensures ok == ReportSignatureOk(aggregator, ledger, report, signature)
  {
    var responses: Payload := map[];
    for i := 0 to |report.observations|
      invariant PayloadOf(ledger, report.observations[..i], report.epoch, report.round, aggregator) == Some(responses)
    {
      var ob := report.observations[i];
      assert ob in report.observations;
      assert report.observations[..i + 1][..i] == report.observations[..i];
      var infos := FindByPeer(ledger, ob.oracle);
      if infos == None {
        return false;
      }
      responses := responses[infos.value.address := Entry(ob.data, report.epoch, report.round, aggregator)];
    }
    assert report.observations[..|report.observations|] == report.observations;
    var infos := FindByAddress(ledger, signature.oracle);
    if infos == None {
      return false;
    }
    return VerifySig(responses, infos.value.publicKey, signature.value);
  }

  /** Acceptance of an attested report: `None` when packing throws. */
  function AttestedVerdict(aggregator: Address, ledger: seq<OracleInfo>, report: AttestedReport, f: int): Option<bool> {
    match PayloadOf(ledger, report.observations, report.epoch, report.round, aggregator)
    case None => None
    case Some(payload) =>
      Some((forall s :: s in report.signatures ==> SignedBy(ledger, payload, s)) && |report.signatures| > f)
  }

  predicate SignedBy(ledger: seq<OracleInfo>, payload: Payload, signature: Signature) {
    var info := FindByAddress(ledger, signature.oracle);
    info.Some? && VerifySig(payload, info.value.publicKey, signature.value)
  }

  predicate AttestedOk(aggregator: Address, ledger: seq<OracleInfo>, report: AttestedReport) {
    AttestedVerdict(aggregator, ledger, report, FaultBound(ledger)) == Some(true)
  }

  method VerifyAttestedReport(aggregator: Address, report: AttestedReport, ledger: seq<OracleInfo>, f: int)
    returns (verdict: Option<bool>)
    ensures verdict == AttestedVerdict(aggregator, ledger, report, f)
  {
    var packed := PackReport(aggregator, ledger, report);
    if packed == None {
      return None;
    }
    return Some((forall s :: s in report.signatures ==> SignedBy(ledger, packed.value, s)) && |report.signatures| > f);
  }

  /** The observation map that `sendReportBlockchain` submits: unknown oracles are skipped. */
  function Submitted(ledger: seq<OracleInfo>, observations: seq<Observation>,
                     epoch: int, round: int, aggregator: Address): Payload {
    if observations == [] then map[]
    else
      var last := |observations| - 1;
      var before := Submitted(ledger, observations[..last], epoch, round, aggregator);
      match FindByPeer(ledger, observations[last].oracle)
      case None => before
      case Some(info) => before[info.address := Entry(observations[last].data, epoch, round, aggregator)]
  }

  method SendReportBlockchain(aggregator: Address, ledger: seq<OracleInfo>, report: AttestedReport)
    returns (observations: Payload, signatures: map<Address, SigValue>)
    ensures observations == Submitted(ledger, report.observations, report.epoch, report.round, aggregator)
    ensures signatures == SignatureMap(report.signatures)
  {
    signatures := map[];
    for i := 0 to |report.signatures|
      invariant signatures == SignatureMap(report.signatures[..i])
    {
      assert report.signatures[..i + 1][..i] == report.signatures[..i];
      signatures := signatures[report.signatures[i].oracle := report.signatures[i].value];
    }
    assert report.signatures[..|report.signatures|] == report.signatures;
    observations := map[];
    for i := 0 to |report.observations|
      invariant observations == Submitted(ledger, report.observations[..i], report.epoch, report.round, aggregator)
    {
      var ob := report.observations[i];
      assert report.observations[..i + 1][..i] == report.observations[..i];
      var infos := FindByPeer(ledger, ob.oracle);
      if infos.Some? {
        observations := observations[infos.value.address := Entry(ob.data, report.epoch, report.round, aggregator)];
      }
    }
    assert report.observations[..|report.observations|] == report.observations;
  }

  function SignatureMap(signatures: seq<Signature>): map<Address, SigValue> {
    if signatures == [] then map[]
    else
      var last := |signatures| - 1;
      SignatureMap(signatures[..last])[signatures[last].oracle := signatures[last].value]
  }

  // ----- Agreement between them -----

  /** Submission skips nothing exactly when packing does not throw, and then submits the packed map. */
  lemma {:induction false} SubmittedIsPayload(ledger: seq<OracleInfo>, observations: seq<Observation>,
                                              epoch: int, round: int, aggregator: Address)
    requires PayloadOf(ledger, observations, epoch, round, aggregator).Some?
    ensures Some(Submitted(ledger, observations, epoch, round, aggregator)) ==
            PayloadOf(ledger, observations, epoch, round, aggregator)
  {
    if observations != [] {
      SubmittedIsPayload(ledger, observations[..|observations| - 1], epoch, round, aggregator);
    }
  }

  /** The observations of ledger members, in order. */
  function OfMembers(ledger: seq<OracleInfo>, observations: seq<Observation>): (members: seq<Observation>)
    ensures forall ob :: ob in members <==> ob in observations && ob.oracle in PeerIds(ledger)
  {
    if observations == [] then []
    else
      var last := |observations| - 1;
      assert observations == observations[..last] + [observations[last]];
      OfMembers(ledger, observations[..last])
      + if observations[last].oracle in PeerIds(ledger) then [observations[last]] else []
  }

  /** In general, submission skips exactly the observations of outsiders. */
  lemma {:induction false} SubmittedSkipsOutsiders(ledger: seq<OracleInfo>, observations: seq<Observation>,
                                                   epoch: int, round: int, aggregator: Address)
    ensures Some(Submitted(ledger, observations, epoch, round, aggregator)) ==
            PayloadOf(ledger, OfMembers(ledger, observations), epoch, round, aggregator)
  {
    if observations != [] {
      var last := |observations| - 1;
      SubmittedSkipsOutsiders(ledger, observations[..last], epoch, round, aggregator);
      var rest := OfMembers(ledger, observations[..last]);
      if observations[last].oracle in PeerIds(ledger) {
        assert OfMembers(ledger, observations) == rest + [observations[last]];
        assert (rest + [observations[last]])[..|rest|] == rest;
      } else {
        assert OfMembers(ledger, observations) == rest;
      }
    }
  }

  /** The signature is by a ledger oracle over exactly this map. */
  ghost predicate SignsMap(ledger: seq<OracleInfo>, submitted: Payload, s: Signature) {
    exists info :: info in ledger && s == Signature(info.address, Signed(info.publicKey, submitted))
  }

  /** Verification throws exactly when an observation names an outsider. Otherwise it accepts exactly the
      reports with more than f signatures, each by the ledger oracle it names over exactly the
      observation map that is submitted to the chain. */
  lemma AcceptedIsSubmitted(aggregator: Address, ledger: seq<OracleInfo>, report: AttestedReport, f: int)
    requires ValidLedger(ledger)
    ensures
      AttestedVerdict(aggregator, ledger, report, f) == None <==>
      exists ob :: ob in report.observations && ob.oracle !in PeerIds(ledger)
    ensures
      var submitted := Submitted(ledger, report.observations, report.epoch, report.round, aggregator);
      AttestedVerdict(aggregator, ledger, report, f) == Some(true) <==>
      && (forall ob :: ob in report.observations ==> ob.oracle in PeerIds(ledger))
      && |report.signatures| > f
      && forall s :: s in report.signatures ==> SignsMap(ledger, submitted, s)
  {
    if forall ob :: ob in report.observations ==> ob.oracle in PeerIds(ledger) {
      SubmittedIsPayload(ledger, report.observations, report.epoch, report.round, aggregator);
      var submitted := Submitted(ledger, report.observations, report.epoch, report.round, aggregator);
      forall s ensures SignedBy(ledger, submitted, s) <==> SignsMap(ledger, submitted, s) {
        SignedByExactly(ledger, submitted, s);
      }
    }
  }

  lemma SignedByExactly(ledger: seq<OracleInfo>, payload: Payload, s: Signature)
    requires ValidLedger(ledger)
    ensures SignedBy(ledger, payload, s) <==> SignsMap(ledger, payload, s)
  {
    if SignedBy(ledger, payload, s) {
      var info := FindByAddress(ledger, s.oracle).value;
      assert s == Signature(info.address, Signed(info.publicKey, payload));
    }
    if SignsMap(ledger, payload, s) {
      var info :| info in ledger && s == Signature(info.address, Signed(info.publicKey, payload));
      LookupsAgree(ledger, info);
    }
  }

  /** The leader accepts a report's signature exactly if all observations name members and it is by a
      ledger oracle over the payload of the report. */
  lemma ReportSignatureExactly(aggregator: Address, ledger: seq<OracleInfo>, report: CompressedReport, signature: Signature)
    requires ValidLedger(ledger)
    ensures
      var payload := PayloadOf(ledger, report.observations, report.epoch, report.round, aggregator);
      ReportSignatureOk(aggregator, ledger, report, signature) <==> payload.Some? && SignsMap(ledger, payload.value, signature)
  {
    var payload := PayloadOf(ledger, report.observations, report.epoch, report.round, aggregator);
    if payload.Some? {
      SignedByExactly(ledger, payload.value, signature);
    }
  }

  /** The submitted signature map has, for each address some signature names, the value of the last one
      naming it, and no other address. */
  lemma {:induction false} SignatureMapContents(signatures: seq<Signature>, address: Address)
    ensures
      if address in SignatureMap(signatures) then
        exists i :: 0 <= i < |signatures| && signatures[i] == Signature(address, SignatureMap(signatures)[address])
                    && forall j :: i < j < |signatures| ==> signatures[j].oracle != address
      else
        forall j :: 0 <= j < |signatures| ==> signatures[j].oracle != address
  {
    if signatures != [] {
      var last := |signatures| - 1;
      var rest := signatures[..last];
      SignatureMapContents(rest, address);
      if signatures[last].oracle == address {
        assert signatures[last] == Signature(address, SignatureMap(signatures)[address]);
      } else if address in SignatureMap(rest) {
        var i :| 0 <= i < |rest| && rest[i] == Signature(address, SignatureMap(rest)[address])
                 && forall j :: i < j < |rest| ==> rest[j].oracle != address;
        assert signatures[i] == rest[i];
        forall j | i < j < |signatures| ensures signatures[j].oracle != address {
          assert j < last ==> signatures[j] == rest[j];
        }
      } else {
        forall j | 0 <= j < |signatures| ensures signatures[j].oracle != address {
          assert j < last ==> signatures[j] == rest[j];
        }
      }
    }
  }

  /** Of an accepted report, every submitted signature verifies, with the key of the ledger oracle it is
      submitted for, over the submitted observation map. */
  lemma SubmittedSignaturesVerify(aggregator: Address, ledger: seq<OracleInfo>, report: AttestedReport, f: int, address: Address)
    requires ValidLedger(ledger) && AttestedVerdict(aggregator, ledger, report, f) == Some(true)
    requires address in SignatureMap(report.signatures)
    ensures
      var submitted := Submitted(ledger, report.observations, report.epoch, report.round, aggregator);
      exists info :: info in ledger && info.address == address
                     && SignatureMap(report.signatures)[address] == Signed(info.publicKey, submitted)
  {
    AcceptedIsSubmitted(aggregator, ledger, report, f);
    SignatureMapContents(report.signatures, address);
    var submitted := Submitted(ledger, report.observations, report.epoch, report.round, aggregator);
    var i :| 0 <= i < |report.signatures|
             && report.signatures[i] == Signature(address, SignatureMap(report.signatures)[address]);
    assert report.signatures[i] in report.signatures;
    assert SignsMap(ledger, submitted, report.signatures[i]);
  }

  /** An oracle's own signature verifies at the leader exactly when every observation names a ledger
      member; otherwise it is the empty string. */
  lemma OwnSignatureVerifiesExactly(me: OracleInfo, ledger: seq<OracleInfo>, report: CompressedReport,
                                    aggregator: Address)
    requires ValidLedger(ledger) && me in ledger
    ensures
      var value := SignatureOf(me.publicKey, ledger, report.observations, report.epoch, report.round, aggregator);
      && (ReportSignatureOk(aggregator, ledger, report, Signature(me.address, value)) <==>
          forall ob :: ob in report.observations ==> ob.oracle in PeerIds(ledger))
      && (value == EmptySig <==> exists ob :: ob in report.observations && ob.oracle !in PeerIds(ledger))
  {
    LookupsAgree(ledger, me);
  }

  // ----- Who vouches for an accepted report -----

  function Signers(signatures: seq<Signature>): set<Address> {
    set s | s in signatures :: s.oracle
  }

  predicate DistinctSigners(signatures: seq<Signature>) {
    forall i, j :: 0 <= i < j < |signatures| ==> signatures[i].oracle != signatures[j].oracle
  }

  /** Somebody outside `bad` is among the signers. */
  predicate SignedOutside(signatures: seq<Signature>, bad: set<Address>) {
    exists s :: s in signatures && s.oracle !in bad
  }

  /** A set of f or fewer oracles can never make up all the signers of a report exactly when its
      signatures name more than f distinct oracles. Acceptance counts signatures and does not imply it. */
  lemma VouchedExactly(signatures: seq<Signature>, f: nat)
    ensures
      (forall bad: set<Address> :: |bad| <= f ==> SignedOutside(signatures, bad)) <==> |Signers(signatures)| > f
  {
    if |Signers(signatures)| > f {
      forall bad: set<Address> | |bad| <= f ensures SignedOutside(signatures, bad) {
        var address := QuorumHasCorrect(Signers(signatures), bad);
        var s :| s in signatures && s.oracle == address;
      }
    } else {
      assert !SignedOutside(signatures, Signers(signatures));
    }
  }

  lemma {:induction false} SignatureMapKeys(signatures: seq<Signature>)
    ensures SignatureMap(signatures).Keys == Signers(signatures)
  {
    if signatures != [] {
      var last := |signatures| - 1;
      SignatureMapKeys(signatures[..last]);
      assert signatures == signatures[..last] + [signatures[last]];
    }
  }

  /** The chain sees the difference: the submitted signature map has one entry for each distinct signer. */
  lemma SubmittedSignersExactly(signatures: seq<Signature>)
    ensures |SignatureMap(signatures)| == |Signers(signatures)|
  {
    SignatureMapKeys(signatures);
    assert |SignatureMap(signatures).Keys| == |SignatureMap(signatures)|;
  }

  /** A report that oracle `info` attests all by itself, by repeating its signature f + 1 times. */
  function SelfAttested(ledger: seq<OracleInfo>, info: OracleInfo, observations: seq<Observation>,
                        epoch: int, round: int, aggregator: Address): AttestedReport
    requires ValidLedger(ledger)
  {
    var signature := Signature(info.address, SignatureOf(info.publicKey, ledger, observations, epoch, round, aggregator));
    AttestedReport(epoch, round, observations, seq(FaultBound(ledger) + 1, _ => signature))
  }

  /** Every oracle accepts it, whatever it says about ledger members. */
  lemma SelfAttestedAccepted(ledger: seq<OracleInfo>, info: OracleInfo, observations: seq<Observation>,
                             epoch: int, round: int, aggregator: Address)
    requires ValidLedger(ledger) && info in ledger
    requires forall ob :: ob in observations ==> ob.oracle in PeerIds(ledger)
    ensures
      var report := SelfAttested(ledger, info, observations, epoch, round, aggregator);
      AttestedOk(aggregator, ledger, report) && Signers(report.signatures) == {info.address}
  {
    LookupsAgree(ledger, info);
    var report := SelfAttested(ledger, info, observations, epoch, round, aggregator);
    assert report.signatures[0].oracle == info.address;
  }
}
