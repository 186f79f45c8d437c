/** Observations, reports and signatures exchanged during report generation. */
module Reports {
  import opened Ledger

  /** A libp2p signature over an observation value; `ForgedPeerSig` is any other byte string. */
  datatype PeerSig = PeerSig(signer: PeerId, data: real) | ForgedPeerSig(bytes: nat)

  datatype Observation = Observation(oracle: PeerId, data: real)
  datatype SignedObservation = SignedObservation(oracle: PeerId, data: real, signature: PeerSig)

  datatype Report = Report(epoch: int, round: int, observations: seq<SignedObservation>)
  datatype CompressedReport = CompressedReport(epoch: int, round: int, observations: seq<Observation>)

  /** What the aggregator contract stores for an oracle address. */
  datatype Entry = Entry(data: real, epoch: int, round: int, aggregator: Address)

  /** The map that is packed and signed; packing is injective on maps and left out. */
  type Payload = map<Address, Entry>

  /** A Mavryk signature: `Signed` verifies for exactly its key and payload, `EmptySig` is the empty
      string, `ForgedSig` is any other string. */
  datatype SigValue = Signed(key: PublicKey, payload: Payload) | EmptySig | ForgedSig(bytes: nat)
  datatype Signature = Signature(oracle: Address, value: SigValue)

  datatype AttestedReport = AttestedReport(
    epoch: int, round: int, observations: seq<Observation>, signatures: seq<Signature>)

  predicate VerifyPeerSig(signer: PeerId, data: real, signature: PeerSig) {
    signature == PeerSig(signer, data)
  }

  predicate VerifySig(payload: Payload, key: PublicKey, value: SigValue) {
    value == Signed(key, payload)
  }

  function StripSignatures(observations: seq<SignedObservation>): (stripped: seq<Observation>)
    ensures |stripped| == |observations|
    ensures forall i :: 0 <= i < |stripped| ==>
      stripped[i] == Observation(observations[i].oracle, observations[i].data)
  {
    seq(|observations|, i requires 0 <= i < |observations| => Observation(observations[i].oracle, observations[i].data))
  }

  function Compress(report: Report): CompressedReport {
    CompressedReport(report.epoch, report.round, StripSignatures(report.observations))
  }

  function Oracles(observations: seq<SignedObservation>): set<PeerId> {
    set ob | ob in observations :: ob.oracle
  }
}
