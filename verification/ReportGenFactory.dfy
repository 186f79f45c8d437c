/** Report generation instances of one oracle, keyed by aggregator. */
module Instances {
  import opened Ledger

  /** The part of an instance's configuration that varies: which epoch it runs and who leads it. */
  datatype Instance = Instance(epoch: nat, leader: PeerId)

  class ReportGenFactory {
    const peerId: PeerId
    var reportgenFollowers: map<Address, Instance>
    var reportgenLeaders: map<Address, Instance>

    constructor (peerId: PeerId)
      ensures this.peerId == peerId
      ensures reportgenFollowers == map[] && reportgenLeaders == map[]
    {
      this.peerId := peerId;
      reportgenFollowers, reportgenLeaders := map[], map[];
    }

    /** Refuses, as the source's exception does, when the aggregator already has an instance. */
    method StartReportGen(aggregator: Address, config: Instance) returns (started: bool)
      modifies this
      ensures started <==> aggregator !in old(reportgenFollowers)
      ensures reportgenFollowers ==
              if started then old(reportgenFollowers)[aggregator := config] else old(reportgenFollowers)
      ensures reportgenLeaders ==
              if started && config.leader == peerId
              then old(reportgenLeaders)[aggregator := config] else old(reportgenLeaders)
    {
      if aggregator in reportgenFollowers {
        return false;
      }
      reportgenFollowers := reportgenFollowers[aggregator := config];
      if config.leader == peerId {
        reportgenLeaders := reportgenLeaders[aggregator := config];
      }
      return true;
    }

    method StopReportGen(aggregator: Address)
      modifies this
      ensures reportgenFollowers == old(reportgenFollowers) - {aggregator}
      ensures reportgenLeaders == old(reportgenLeaders) - {aggregator}
    {
      reportgenFollowers := reportgenFollowers - {aggregator};
      reportgenLeaders := reportgenLeaders - {aggregator};
    }
  }
}
