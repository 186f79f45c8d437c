/** The oracles of one aggregator and which of them are faulty. */
module Networks {
  import opened Ledger

  datatype Network = Network(ledger: seq<OracleInfo>, faulty: set<PeerId>, aggregator: Address) {
    predicate Valid() {
      ValidLedger(ledger) && |faulty| <= FaultBound(ledger)
    }

    function Correct(): set<PeerId> {
      PeerIds(ledger) - faulty
    }
  }
}
