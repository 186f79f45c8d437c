# Verified model of the Maven oracle node's off-chain consensus

The oracles of an aggregator agree off chain on a median price and push it to a smart contract. Each
oracle runs a *pacemaker* (which epoch is it, who leads it), one *report generation* follower per epoch
and, if it leads, a leader, and a *transmit* service that queues attested reports and sends each one in
this oracle's own time slot. The protocol follows sections 5.2 to 5.4 of Chainlink's "Off-chain Reporting
Protocol" paper; up to f = floor((n - 1) / 3) of the n oracles may be faulty in any way.

This project models those services and proves what they are for: what every handler keeps, and what
holds in every run of all oracles together, with faulty members sending anything they like.

`dafny verify dfyconfig.toml` checks everything.

## Main results

* *Epochs.* In every run, with E the highest epoch and M the highest proposal of correct oracles,
  E <= M <= E + 1; only timeouts and `changeLeader` raise M; nobody enters an epoch that f + 1 correct
  oracles did not propose. (`PacemakerSystem`)
* *One round.* From a leader's observation request, the outputs of 2f + 1 followers, delivered to each
  other, end with every one of them transmitting the leader's final. (`Rounds`)
* *Agreement.* Within an epoch and round either all correct oracles transmit or none does.
  (`EchoAgreement`)
* *Attestation.* Whatever faulty oracles answer, an accepted final has the payload of the one report its
  leader asked to be signed. (`Attestation`)
* *Who vouches.* A report that oracles accept cannot be invented by f faulty oracles exactly if its
  signatures name more than f distinct oracles; the code counts signatures, and a run shows one faulty
  oracle making all correct ones transmit. (`Vouching`)
* *Bounds of one instance.* Phases, counts per round, and the evidence behind a transmission, over all
  runs of one leader or one follower. (`Leader`, `Follower`)
* *Median.* It stays within the correct observations exactly while faulty oracles hold fewer than half.
  (`Median`)
* *Transmission.* In every interleaving no queued report is lost, popped twice or popped early, and
  accepted reports of an aggregator strictly increase. (`TransmitSystem`)

The table under "Model" lists these first, then the lemmas that support them, then the methods of the
services, each of which is proved to compute the reaction those results are about.

## How the model is organised

Every service appears at two levels, and one whole-system level sits above them.

* A *reaction function* over plain values says what one handler does to one oracle's state and what it
  emits. Modules `Pacemaker`, `Follower`, `Leader`, `Transmit` hold these and the lemmas about them.
* A *class* with the fields of the service, whose methods assign those fields step by step in the order
  of the source (`PacemakerService`, `ReportGenFollowerService`, `ReportGenLeaderService`,
  `ReportGenFactory`, `TransmitService`, `Timer`), plus the methods with loops (`Contract`, `EpochRules`,
  `Shuffle`). Each method is proved to compute exactly the reaction, so every lemma applies to it.
* A *transition system* over all correct oracles: `PacemakerSystem` for epochs, `ReportSystem` with
  `EchoAgreement`, `Attestation` and `Vouching` for report generation, `TransmitSystem` for the interleavings of one
  transmit service. Messages of correct oracles are authentic, and are delivered in any order, any
  number of times, or never; faulty oracles and outsiders send anything under their own name. A result
  about "every run" is about every finite sequence of such steps.

| file | models |
|---|---|
| `Ledger.dfy` | oracle ledger, fault bound, leader schedule, quorum counting |
| `Decimal.dfy` | the order of a comparator-less `sort` on numbers |
| `EpochRules.dfy` | the vote that amplification and agreement share |
| `Pacemaker.dfy`, `PacemakerSystem.dfy` | one pacemaker, all pacemakers |
| `ReportGenFactory.dfy` | instance maps |
| `Reports.dfy`, `Contract.dfy`, `Median.dfy` | messages and signatures, payloads, the median |
| `Follower.dfy`, `FollowerService.dfy` | one follower |
| `Leader.dfy`, `LeaderService.dfy` | one leader |
| `Exchange.dfy`, `Rounds.dfy` | the leader's side of a round, a whole round with its followers |
| `Networks.dfy`, `ReportSystem.dfy` | all followers and leaders |
| `EchoAgreement.dfy`, `Attestation.dfy`, `Vouching.dfy` | agreement on transmission, what finals attest, who vouches for a report |
| `Shuffle.dfy` | the transmission order and the slots |
| `Transmit.dfy`, `TransmitSystem.dfy`, `TransmitService.dfy` | freshness, the queue and its timer |

## Assumptions

* The ledger is fixed, has at least one oracle, and its peer ids and addresses are distinct. Oracles do not
  restart, and every oracle in the system has initialised successfully (handlers that arrive earlier wait
  for the mutex that `initialize` holds). Oracles may initialise at different times, at whatever epoch
  the chain shows them then.
* The handlers of one service run one at a time (they share a mutex), so a broadcast and the field updates
  around it are one step. The transmit service has no mutex; its handlers are cut at every `await`.
* A signature verifies for exactly the key and the value it was made with; any other string never does.
  Packing is injective on observation maps, so the map itself stands for the packed bytes. Faulty
  oracles may send any signature value, also one that verifies; only where a result says "without
  forgery" (`Vouching.Unforged`) do messages contain no signature of a correct oracle that it has not
  sent before. The observations sent to leaders are unconstrained.
* Epochs and rounds in messages are integers, below 2^53, where JavaScript numbers are exact and (up to
  10^21) written as plain decimals. The source does not enforce this: `deserializeNewEpochMessage`
  (pacemaker.network.service.ts lines 78 to 86) takes whatever JSON value it finds. A faulty vote of 9.5
  next to correct votes of 10 would be visited first, gather their support, and make a node enter
  epoch 9.5, whose leader is undefined; "anything they like" excludes such values.
* `localeCompare` is a total order on peer ids; `BigNumber` arithmetic is exact; the generator returns
  arbitrary values in [0, 1), the same ones to all oracles for the same aggregator, epoch and round; the heap returns an earliest entry.
* What a handler reads from elsewhere (chain, configuration, data, clock, public keys) is an input of it.
* Instances are never forgotten in the report generation system: handlers still queued when an
  instance is stopped may run later.

## Where the code departs from what one might expect

* Epochs are sorted without a comparator, so they are ordered as decimal strings (pacemaker lines 281 and
  334): 9 is visited before 10. What the votes then yield is stated exactly: the order statistic is found
  if and only if no candidate outranks it as a string (`PickIsOrderStatisticExactly`), and the two counting
  bounds hold after a handler under the corresponding condition on the votes alone
  (`ProposalsExhaustedExactly`, `AgreementsExhaustedExactly`). `StringSortWitness` is a case
  where they differ. The invariant epoch <= newEpoch, quorum evidence and progress hold regardless.
* A follower does not compare a report request's epoch and round with its own, and `_sentReport` is written
  but never read, so nothing is claimed about signing one report per round.
* The follower's round state is not reset when it reaches the round after the last one. Echoes recorded
  before then count for that round: `CarriedEchoWitness` transmits with a single echo of it. What
  transmissions rest on is stated for every round, with the exact condition (`TransmitEvidenceExactly`,
  `TransmissionIsBacked`); `AllOrNoneTransmit` is about rounds up to the last.
* A report accepted by a follower may name one oracle several times. `RepeatedOraclePasses` gives such a
  report; the median is robust exactly while faulty oracles hold fewer than half of the observations
  (`MedianRobustExactly`). Reports assembled by a leader never repeat an oracle (`EveryReportRequest`).
* `verifyAttestedReport` counts signatures, not signers. `SelfAttestedAccepted` is a report that one oracle
  attests alone, `OneOracleInvents` a run in which it makes every correct oracle transmit it. A report is
  safe from this exactly if it names more than f distinct signers (`SafeExactly`), which is also the
  number of signatures that reach the chain (`SubmittedSignersExactly`).
* `_onReport` does not compare the signer of a report with its sender, so one signature sent by f + 1
  members completes a final (`ReplayWitness`). Signers stay distinct exactly as long as no accepted
  report repeats one (`SignersStayDistinctExactly`); when the f + 1 reports behind a final are of oracles
  that are not faulty, they are distinct (`FinalAttestsItsRequest`).
* A timer handler of the transmit service that throws does not re-arm the timer. `StallExactly` says when
  that leaves queued reports without a wake-up, `ThrowWitness` is a run that gets there.
* The comment on `_shouldReport` says "at least alpha"; the code, and the model, ask for strictly more.
  `onTransmit` does accept a deviation of exactly alpha.
* Quorum intersection is not used anywhere: two sets of 2f + 1 oracles share a correct one only when n = 3f + 1.

## Model

| member | source | states |
|---|---|---|
| PacemakerSystem.SkewBound | libs/oracle/src/lib/pacemaker/pacemaker.service.ts:188-313 | in every run, with E the highest epoch and M the highest newEpoch of correct oracles, E <= M <= E + 1 |
| PacemakerSystem.OnlyTimeoutsRaiseProposals | libs/oracle/src/lib/pacemaker/pacemaker.service.ts:188-313 | no message raises M; a progress timeout or `changeLeader` raises it by at most one |
| PacemakerSystem.EnteringNeedsCorrectQuorum | libs/oracle/src/lib/pacemaker/pacemaker.service.ts:321-368 | in every run an entered epoch is at most one above the highest and was proposed by at least f + 1 correct ledger members |
| PacemakerSystem.NodesStayConsistent | libs/oracle/src/lib/pacemaker/pacemaker.service.ts:106-409 | in every reachable state every correct pacemaker satisfies the node invariant |
| EpochRules.PickIsOrderStatisticExactly | libs/oracle/src/lib/pacemaker/pacemaker.service.ts:275-300 | the vote yields the (threshold + 1)-th largest recorded epoch if and only if no candidate outranks it as a string; it never yields more |
| EpochRules.PickExhaustsExactly | libs/oracle/src/lib/pacemaker/pacemaker.service.ts:328-352 | at most `threshold` peers remain above the outcome if and only if the candidates are visited in order |
| EpochRules.StringSortWitness | libs/oracle/src/lib/pacemaker/pacemaker.service.ts:334 | votes 9, 10, 10 with threshold 1: the second largest is 10, the vote yields 9 |
| Pacemaker.AgreedEpochIsProposed | libs/oracle/src/lib/pacemaker/pacemaker.service.ts:257-258 | because amplification runs first over the same votes, agreement never picks beyond the node's own proposal |
| Pacemaker.ReactKeepsInv | libs/oracle/src/lib/pacemaker/pacemaker.service.ts:180-409 | every handler keeps epoch <= newEpoch, votes of members only, and the instance lifecycle, also when the configuration fetch fails; epochs never fall and instances are replaced only by later ones |
| Pacemaker.SupportedVotesMakeProgress | libs/oracle/src/lib/pacemaker/pacemaker.service.ts:240-259 | a node leaves its epoch in a handler if and only if its votes hold more than 2f entries above it, and raises its proposal if and only if more than f entries exceed that |
| Pacemaker.ProposalsExhaustedExactly | libs/oracle/src/lib/pacemaker/pacemaker.service.ts:267-313 | at most f votes exceed newEpoch afterwards if and only if the candidates are visited in order |
| Pacemaker.AgreementsExhaustedExactly | libs/oracle/src/lib/pacemaker/pacemaker.service.ts:321-362 | at most 2f votes exceed the epoch afterwards if and only if the candidates are visited in order |
| Pacemaker.ReceivedEffects | libs/oracle/src/lib/pacemaker/pacemaker.service.ts:240-409 | a message makes a node broadcast exactly a raised proposal, restart its progress timer exactly on entering an epoch it could configure, and emit `startepoch` exactly when a leader instance was started |
| Ledger.FairRotation | libs/oracle/src/lib/pacemaker/pacemaker.service.ts:425-430 | over any n consecutive epochs each ledger oracle leads exactly once |
| Ledger.CorrectLeaderSoon | libs/oracle/src/lib/pacemaker/pacemaker.service.ts:425-430 | any f + 1 consecutive epochs include one led by a correct oracle |
| EchoAgreement.AllOrNoneTransmit | libs/oracle/src/lib/reportgen/reportgen.follower.service.ts:330-516 | all correct oracles in one epoch and round up to the last, none declined, all echoes delivered, each oracle's own included: all have transmitted or none has |
| EchoAgreement.TransmissionIsBacked | libs/oracle/src/lib/reportgen/reportgen.follower.service.ts:413-516 | behind every transmission, in any round, is a correct oracle that verified and echoed a report of that epoch, and of that very round unless its echo was carried over or if more than f recorded echoes were not; up to the last round none is carried over |
| Attestation.FinalAttestsItsRequest | libs/oracle/src/lib/reportgen/reportgen.leader.service.ts:268-375 | in every run, whatever faulty oracles send: behind each final is exactly one report request of that leader, epoch and round; every oracle accepts the final if and only if all f + 1 reports behind it have that request's payload, and then the final has it; if none of the f + 1 is from a faulty oracle, it is accepted, carries the request's observations and has f + 1 distinct signers |
| Attestation.SignedReportWasChecked | libs/oracle/src/lib/reportgen/reportgen.follower.service.ts:229-307 | in every run, behind a report signed by a correct oracle is a request of that epoch's leader with at least 2f + 1 different oracles, in order, every observation signed by the oracle it names |
| Leader.FinalAcceptedExactly | libs/oracle/src/lib/reportgen/reportgen.leader.service.ts:340-375 | a broadcast final is accepted by every oracle if and only if all f + 1 collected reports have one and the same payload |
| Leader.SignersStayDistinctExactly | libs/oracle/src/lib/reportgen/reportgen.leader.service.ts:268-342 | the collected signatures stay by distinct oracles if and only if the accepted report does not repeat an earlier signer |
| Exchange.ReplayWitness | libs/oracle/src/lib/reportgen/reportgen.leader.service.ts:268-375 | one oracle's signature sent by f + 1 members makes the leader broadcast an accepted final with a single signer |
| Vouching.SafeExactly | libs/oracle/src/lib/contract/contract.service.ts:270-283 | an accepted report cannot be invented, whichever f or fewer oracles are faulty, if and only if its signatures name more than f distinct oracles |
| Vouching.InventedExactly | libs/oracle/src/lib/contract/contract.service.ts:262-284 | a run without forgery in which a correct oracle transmits a report no correct oracle signed exists if and only if the report is accepted, of a round followers run, and all its signers are faulty |
| Vouching.VouchedByCorrect | libs/oracle/src/lib/reportgen/reportgen.follower.service.ts:330-516 | without forged signatures, behind every report that a correct follower accepts and that names more than f distinct signers is a correct oracle that signed it, having got a report of that payload with at least 2f + 1 different oracles and every observation signed by the oracle it names |
| Vouching.OutputsAreHandled | libs/oracle/src/lib/reportgen/reportgen.follower.service.ts:330-516 | whatever a correct follower echoes or transmits it accepted in that step, so the previous row applies |
| Vouching.InventedTransmits | libs/oracle/src/lib/reportgen/reportgen.follower.service.ts:330-516 | a report that only faulty oracles signed, sent as an echo by one of them, can make every correct oracle transmit it, without forgery and without any correct oracle signing |
| Vouching.OneOracleInvents | libs/oracle/src/lib/reportgen/reportgen.follower.service.ts:413-516 | one faulty oracle suffices, for any network, any observations of members, any epoch and any round |
| Rounds.RoundTransmits | libs/oracle/src/lib/reportgen/reportgen.follower.service.ts:152-516 | a whole round, handler output by handler output, the first opened by startepoch and later ones by the round timer: the leader asks, 2f + 1 followers observe, it requests, f + 1 answer, it broadcasts its final, f + 1 echo; if the followers find the report worth reporting, each of them transmits that final |
| Leader.LeaderReactKeepsInv | libs/oracle/src/lib/reportgen/reportgen.leader.service.ts:161-461 | phase invariant: Observe at most 2f observations, Grace at least 2f + 1 and no reports, Report at most f reports, Final exactly f + 1, all verified and of distinct members |
| Leader.EveryLeaderRun | libs/oracle/src/lib/reportgen/reportgen.leader.service.ts:161-461 | in every run each round broadcasts one observation request, at most one report request and at most one final, and exactly those its phase says |
| Leader.RoundOpensExactly | libs/oracle/src/lib/reportgen/reportgen.leader.service.ts:387-434 | a round is opened, with its request and timer and nothing kept of the last, if and only if the round timer expires or a startepoch names this aggregator, epoch and leader |
| Leader.EveryReportRequest | libs/oracle/src/lib/reportgen/reportgen.leader.service.ts:445-461 | so does every report request of every run, naming distinct members |
| Leader.RequestIsObserved | libs/oracle/src/lib/reportgen/reportgen.leader.service.ts:161-245 | in every run each observation in a report request was sent by the oracle it names, signed, for the very epoch and round of the request |
| Leader.EveryReportMedianRobust | libs/oracle/src/lib/reportgen/reportgen.leader.service.ts:445-461 | and its median stays within the observations of correct oracles |
| Median.MedianRobustExactly | libs/oracle/src/lib/reportgen/helpers.ts:19-29 | robustness against every common lie holds if and only if faulty oracles hold fewer than half |
| Follower.EveryRunCounts | libs/oracle/src/lib/reportgen/reportgen.follower.service.ts:152-516 | in every run each round sends at most one observation, broadcasts at most one echo and transmits at most once; the current round, up to the last, has echoed exactly if an echo is remembered and transmitted exactly if more than f echoes are recorded; one leader change, exactly in the round after the last |
| Follower.EveryRunTotals | libs/oracle/src/lib/reportgen/reportgen.follower.service.ts:152-209 | over its life an instance sends at most one observation for each of three rounds and requests one leader change, exactly on reaching round 4 |
| Follower.ReportReqExactly | libs/oracle/src/lib/reportgen/reportgen.follower.service.ts:229-311 | a follower signs if and only if the request is its leader's, sorted, of at least 2f + 1 different oracles with known keys, self-signed throughout, and due; it completes the round if and only if only the last fails; else nothing changes |
| Follower.TransmitEvidenceExactly | libs/oracle/src/lib/reportgen/reportgen.follower.service.ts:413-516 | behind every transmission, in any round, are recorded echoes of more than f members; all are of that very epoch and round if and only if none was carried over on entering it, which happens at most in the round after the last |
| Follower.RecordedEchoes | libs/oracle/src/lib/reportgen/reportgen.follower.service.ts:413-490 | every recorded echo is of a member; it was verified for the current round if and only if it was not carried over on entering that round; carried ones were verified for an earlier round, and only the round after the last is entered with any |
| Follower.CarriedEchoWitness | libs/oracle/src/lib/reportgen/reportgen.follower.service.ts:170-192 | with four oracles: four messages after which a follower transmits a report of the round after the last with a single echo of that round |
| Follower.RepeatedOraclePasses | libs/oracle/src/lib/reportgen/reportgen.follower.service.ts:250-292 | with four oracles, a report repeating the faulty one three times passes every check and lets it hold half of the observations |
| Contract.AcceptedIsSubmitted | libs/oracle/src/lib/contract/contract.service.ts:262-324 | verification throws if and only if an observation names an outsider; it accepts if and only if otherwise more than f signatures are each by a ledger oracle over exactly the map that is submitted |
| Contract.VouchedExactly | libs/oracle/src/lib/contract/contract.service.ts:262-284 | no set of f or fewer oracles can contain all the signers of a report if and only if its signatures name more than f distinct oracles |
| Contract.SubmittedSignersExactly | libs/oracle/src/lib/contract/contract.service.ts:293-304 | the submitted signature map has exactly one entry per distinct signer |
| Contract.SignatureMapContents | libs/oracle/src/lib/contract/contract.service.ts:300-304 | the submitted signature map has, for each named address, the value of the last signature naming it, and no other address |
| Contract.SubmittedSignaturesVerify | libs/oracle/src/lib/contract/contract.service.ts:262-324 | of an accepted report every submitted signature verifies with that ledger oracle's key over the submitted observation map |
| TransmitSystem.AtMostOnceAndOnTime | libs/oracle/src/lib/transmit/transmit.service.ts:99-360 | in every interleaving no report is lost, none is popped twice, none is popped before the time it was queued at plus the delay of its slot, and no two popped ones share aggregator, epoch and round |
| TransmitSystem.PoppedAfterItsDelay | libs/oracle/src/lib/transmit/transmit.service.ts:258-322 | in every run each popped entry was queued by an earlier push of that accepted report, and popped no earlier than the time of that push plus the delay computed for it |
| TransmitSystem.QueuedWasPushed | libs/oracle/src/lib/transmit/transmit.service.ts:258-266 | in every run each queued entry was queued by an earlier push, for the time of that push plus its delay |
| TransmitSystem.AcceptedStrictlyIncrease | libs/oracle/src/lib/transmit/transmit.service.ts:99-256 | per aggregator accepted reports strictly increase in (epoch, round), whatever stale chain snapshots were used |
| TransmitSystem.QueueIsServed | libs/oracle/src/lib/transmit/transmit.service.ts:245-360 | while no handler throws, a non-empty queue always has the timer armed for its earliest entry or a handler in flight |
| TransmitSystem.StallExactly | libs/oracle/src/lib/transmit/transmit.service.ts:245-360 | the queue loses its wake-up exactly when the only unfinished handler throws with the timer unarmed and reports queued; only a push ends that |
| TransmitSystem.ThrowWitness | libs/oracle/src/lib/transmit/transmit.service.ts:321-360 | a run of six steps from the initial state in which one throw leaves a queued report without a wake-up |
| Shuffle.SlotSchedule | libs/oracle/src/lib/transmit/transmit.service.ts:296-311 | for one aggregator, epoch and round the ledger's oracles get exactly the delays 0, 20 s, ..., (n - 1) 20 s, one oracle each |
| Shuffle.ShuffleIsBijective | libs/oracle/src/lib/transmit/helpers.ts:12-16 | every order of distinct elements arises from exactly one sequence of in-range choices, so none is favoured |
| Shuffle.EveryOrderIsDrawn | libs/oracle/src/lib/transmit/helpers.ts:8-19 | every order of distinct elements is the result for some generator values in [0, 1) |
| Shuffle.DrawPlaces | libs/oracle/src/lib/transmit/helpers.ts:12-16 | the k-th draw decides which of the elements left is placed last but k, and later swaps leave it there |
| Ledger.ComputeF | libs/oracle/src/lib/pacemaker/helpers.ts:1-3 | the result is the largest f with 3f + 1 <= n |
| Ledger.FindByPeer | libs/oracle/src/lib/contract/contract.service.ts:103 | finds an entry with that peer id if and only if there is one |
| Ledger.FindByAddress | libs/oracle/src/lib/contract/contract.service.ts:246 | finds an entry with that address if and only if there is one |
| Ledger.LookupsAgree | libs/oracle/src/lib/contract/contract.service.ts:103 | looking an oracle up by peer id or by address gives back that oracle |
| Ledger.LeaderOfTurn | libs/oracle/src/lib/pacemaker/pacemaker.service.ts:425-430 | entry i of the ledger leads the i-th epoch of every turn of n epochs |
| Decimal.SameLengthOrder | libs/oracle/src/lib/pacemaker/pacemaker.service.ts:281 | numbers with equally many digits sort as strings exactly as they do as numbers |
| Decimal.OutranksExactly | libs/oracle/src/lib/pacemaker/pacemaker.service.ts:281 | a string sort misorders two numbers if and only if the smaller exceeds the leading digits of the larger cut to its length |
| EpochRules.ValuesOf | libs/oracle/src/lib/pacemaker/pacemaker.service.ts:275 | counting recorded values from an epoch on counts the peers that support it |
| EpochRules.VisitingOrder | libs/oracle/src/lib/pacemaker/pacemaker.service.ts:279-282 | the candidates are exactly the recorded values above the bound, strictly descending as decimal strings |
| EpochRules.FirstSupported | libs/oracle/src/lib/pacemaker/pacemaker.service.ts:275-300 | the loop returns the string-greatest recorded epoch above the bound that more than `threshold` peers support, or none if there is none |
| EpochRules.PickUnique | libs/oracle/src/lib/pacemaker/pacemaker.service.ts:279-300 | at most one epoch meets that description, so the insertion order of the votes is irrelevant |
| EpochRules.PickSucceedsExactly | libs/oracle/src/lib/pacemaker/pacemaker.service.ts:287-300 | a vote succeeds if and only if more than `threshold` peers are above the bound |
| EpochRules.LowerQuorumPicksNoLess | libs/oracle/src/lib/pacemaker/pacemaker.service.ts:257-258 | what the higher quorum picks above the lower quorum's bound, the lower quorum matches or exceeds |
| EpochRules.PickIsOrderStatisticSameLength | libs/oracle/src/lib/pacemaker/pacemaker.service.ts:275-300 | it does so whenever the candidates have equally many digits |
| Pacemaker.ReceivedProposal | libs/oracle/src/lib/pacemaker/pacemaker.service.ts:240-313 | after a message newEpoch is the vote with quorum f, unaffected by agreement |
| Pacemaker.ReceivedEpoch | libs/oracle/src/lib/pacemaker/pacemaker.service.ts:321-362 | after a message the epoch is the vote with quorum 2f, with that epoch's leader |
| Pacemaker.StartEpochFindsLeader | libs/oracle/src/lib/pacemaker/pacemaker.service.ts:401-408 | every `startepoch` event meets a leader instance of this oracle with the same epoch and leader |
| Pacemaker.TimersExactly | libs/oracle/src/lib/pacemaker/pacemaker.service.ts:180-409 | which handlers restart the progress timer; the resend timer restarts exactly with a broadcast; events about others do nothing |
| Pacemaker.InstancesExactly | libs/oracle/src/lib/pacemaker/pacemaker.service.ts:355-409 | the instances change if and only if an epoch is entered with its configuration, and then are exactly that epoch's |
| Pacemaker.TimeoutsProposeBeyondEpoch | libs/oracle/src/lib/pacemaker/pacemaker.service.ts:198-238 | a timeout proposes the next epoch or repeats a higher proposal, a resend repeats; each broadcasts exactly what it then holds and changes nothing else |
| Pacemaker.VotesOnlyGrow | libs/oracle/src/lib/pacemaker/pacemaker.service.ts:252-255 | recorded votes never fall, and rise only to what their own peer just sent |
| Pacemaker.RecordedExactly | libs/oracle/src/lib/pacemaker/pacemaker.service.ts:252-255 | what is recorded for a sender is the highest epoch it has sent, and nothing changes for the others |
| Pacemaker.InitializedExactly | libs/oracle/src/lib/pacemaker/pacemaker.service.ts:106-153 | a pacemaker starts in the epoch on chain, proposes exactly that, has no votes and runs that epoch's instances |
| Pacemaker.ReactBroadcasts | libs/oracle/src/lib/pacemaker/pacemaker.service.ts:188-196 | no handler broadcasts more than the newEpoch it leaves |
| PacemakerSystem.ReceiveProposesNothingNew | libs/oracle/src/lib/pacemaker/pacemaker.service.ts:267-313 | what a message makes an oracle propose, some correct oracle already proposed |
| PacemakerSystem.EnterNeedsProposers | libs/oracle/src/lib/pacemaker/pacemaker.service.ts:321-368 | an oracle keeps its epoch or enters one that f + 1 correct oracles already propose |
| Contract.PayloadOf | libs/oracle/src/lib/contract/contract.service.ts:95-115 | a payload exists if and only if every observation names a ledger member |
| Contract.PayloadContents | libs/oracle/src/lib/contract/contract.service.ts:95-115 | the payload maps each observed oracle to its last observation with the report's epoch, round and aggregator, and nothing else |
| Contract.PackReport | libs/oracle/src/lib/contract/contract.service.ts:95-115 | packs that payload, or throws exactly when an observation names an outsider |
| Contract.SignCompressedReport | libs/oracle/src/lib/contract/contract.service.ts:191-213 | signs that payload, or returns the empty string on an outsider |
| Contract.VerifyReportSignature | libs/oracle/src/lib/contract/contract.service.ts:225-251 | accepts exactly a signature by the named ledger oracle over that payload |
| Contract.VerifyAttestedReport | libs/oracle/src/lib/contract/contract.service.ts:262-284 | throws on an outsider, else accepts exactly more than f signatures all valid for that payload |
| Contract.SendReportBlockchain | libs/oracle/src/lib/contract/contract.service.ts:293-324 | the submitted observation map, skipping outsiders, and the signature map |
| Contract.SubmittedIsPayload | libs/oracle/src/lib/contract/contract.service.ts:306-318 | whenever packing does not throw, submission skips nothing and submits the signed map |
| Contract.SubmittedSkipsOutsiders | libs/oracle/src/lib/contract/contract.service.ts:306-318 | for any report the submitted map is the payload of its members' observations |
| Contract.OwnSignatureVerifiesExactly | libs/oracle/src/lib/contract/contract.service.ts:191-251 | signing and leader verification agree: an oracle's signature verifies if and only if all observations name members |
| Contract.ReportSignatureExactly | libs/oracle/src/lib/contract/contract.service.ts:225-251 | the leader accepts a report's signature if and only if all observations name members and it is by a ledger oracle over that payload |
| Contract.SelfAttestedAccepted | libs/oracle/src/lib/contract/contract.service.ts:262-284 | for every ledger, f + 1 copies of one oracle's own signature make a report about ledger members that every oracle accepts |
| Median.MedianIgnoresOrder | libs/oracle/src/lib/reportgen/helpers.ts:19-29 | the median does not depend on the order of the observations |
| Median.MedianWithinCorrect | libs/oracle/src/lib/reportgen/helpers.ts:19-29 | for odd and even sizes it stays within the correct observations while faulty oracles hold fewer than half |
| Median.QuorumMedianRobust | libs/oracle/src/lib/reportgen/helpers.ts:19-29 | hence for any 2f + 1 or more distinct oracles of which at most f are faulty |
| Median.HalfFaultyBreaksMedian | libs/oracle/src/lib/reportgen/helpers.ts:19-29 | with half or more of the observations a common lie lifts the median above any bound |
| Median.MedianIsMiddle | libs/oracle/src/lib/reportgen/helpers.ts:19-29 | the median is the middle observation, or the mean of the two middle ones: at most half of the data lie below and at most half above |
| Follower.ReactCounts | libs/oracle/src/lib/reportgen/reportgen.follower.service.ts:152-516 | per handler: an echo exactly when one becomes remembered, a transmission exactly when the recorded echoes pass f, a leader change exactly on reaching the round after the last |
| Follower.ReactRound | libs/oracle/src/lib/reportgen/reportgen.follower.service.ts:178-192 | within a round nothing recorded is forgotten; a later round up to the last starts afresh |
| Follower.ObserveReqExactly | libs/oracle/src/lib/reportgen/reportgen.follower.service.ts:152-209 | the round changes if and only if the own leader asks for a later round up to the one after the last; what is then observed or requested is exact |
| Follower.FinalExactly | libs/oracle/src/lib/reportgen/reportgen.follower.service.ts:330-392 | a final is echoed and remembered if and only if it is the own leader's, of this epoch and round, the first, and verifies |
| Follower.FinalEchoExactly | libs/oracle/src/lib/reportgen/reportgen.follower.service.ts:413-516 | an echo is recorded if and only if it is a member's first of this epoch and round, before completion, and verifies; broadcast, transmission and completion follow exactly |
| Follower.StrictDeviationBand | libs/oracle/src/lib/reportgen/reportgen.follower.service.ts:599-613 | the deviation test asks whether the median has left the band of alpha per thousand around the value on chain, bounds excluded |
| Follower.RoundsIncrease | libs/oracle/src/lib/reportgen/reportgen.follower.service.ts:170-178 | rounds never fall, stay within the maximum plus one, and each accepted request raises them |
| Leader.SortByOracle | libs/oracle/src/lib/reportgen/reportgen.leader.service.ts:506-518 | the assembled observations are sorted by oracle |
| Leader.SortKeepsAll | libs/oracle/src/lib/reportgen/reportgen.leader.service.ts:506-518 | and are the collected ones, each as often as it was collected |
| Leader.ObserveExactly | libs/oracle/src/lib/reportgen/reportgen.leader.service.ts:161-245 | an observation is added if and only if it is a member's first, signed, of this epoch and round, before the request; grace starts at the (2f + 1)-th |
| Leader.ReportExactly | libs/oracle/src/lib/reportgen/reportgen.leader.service.ts:268-375 | a report is added if and only if it is a member's first of this epoch and round while reports are collected, signed by a ledger oracle over its payload; the (f + 1)-th ends the round |
| Leader.RequestExactly | libs/oracle/src/lib/reportgen/reportgen.leader.service.ts:445-518 | a report is requested if and only if the grace timer expires in the grace phase, and carries all collected observations, each once, in order |
| Leader.CollectedWasSent | libs/oracle/src/lib/reportgen/reportgen.leader.service.ts:161-245 | in every run a collected observation was sent by its own oracle for the current round |
| Leader.LeaderReactAdvances | libs/oracle/src/lib/reportgen/reportgen.leader.service.ts:161-461 | within a round phases only advance and observations are frozen once the request is out |
| Leader.ReactEmits | libs/oracle/src/lib/reportgen/reportgen.leader.service.ts:161-461 | a handler is silent while the phase stays; each change of phase has its one message or timer: observation request and round timer, grace timer, report request, final |
| Leader.AssembledIsAcceptable | libs/oracle/src/lib/reportgen/reportgen.leader.service.ts:445-518 | a report assembled in the grace phase passes every follower check |
| Exchange.RoundCompletes | libs/oracle/src/lib/reportgen/reportgen.leader.service.ts:161-461 | observations of any 2f + 1 distinct members, the grace timeout and f + 1 answers of distinct members, signed by any members, end the round with a final every oracle accepts |
| EchoAgreement.RunKeepsEcho | libs/oracle/src/lib/reportgen/reportgen.follower.service.ts:330-516 | in every run recorded echoes of correct oracles were really sent, and senders remember them |
| Attestation.ReportAnswersRequest | libs/oracle/src/lib/reportgen/reportgen.follower.service.ts:294-307 | what a follower signs is the request it just got, addressed to its sender |
| Attestation.OwnRequestUnique | libs/oracle/src/lib/reportgen/reportgen.leader.service.ts:445-461 | a leader's step keeps requests unique per leader, epoch and round |
| Attestation.CollectedIsOwnReport | libs/oracle/src/lib/reportgen/reportgen.leader.service.ts:268-345 | what a leader has collected from a correct oracle is that leader's own report with that oracle's signature |
| Attestation.FreshFinal | libs/oracle/src/lib/reportgen/reportgen.leader.service.ts:340-375 | the same for the one step that broadcasts the final |
| Shuffle.RandomPermutation | libs/oracle/src/lib/transmit/helpers.ts:8-19 | the in-place loop computes the permutation the generator values determine |
| Shuffle.PermutationMultiset | libs/oracle/src/lib/transmit/helpers.ts:12-16 | for any values in [0, 1) the result is a permutation |
| Shuffle.Choice | libs/oracle/src/lib/transmit/helpers.ts:13-14 | a draw v picks the position j with j <= v (i + 1) < j + 1 |
| Shuffle.GetTransmitDelayMs | libs/oracle/src/lib/transmit/transmit.service.ts:296-311 | the delay is the oracle's slot, times delta, in the permutation drawn with the seed of aggregator, epoch and round |
| Shuffle.OutsiderDelay | libs/oracle/src/lib/transmit/transmit.service.ts:309-310 | the delay is negative if and only if the oracle is not in the ledger |
| Transmit.FreshnessIsTotalOrder | libs/oracle/src/lib/transmit/transmit.service.ts:215-230 | the comparison is the lexicographic order of (epoch, round), base before other, and total |
| Transmit.AcceptedExactly | libs/oracle/src/lib/transmit/transmit.service.ts:99-194 | a report is accepted if and only if it is strictly later than chain and cache and, when there is a cached one, both have observations and either deviate enough or the chain has reached the cached one |
| Transmit.DeviationBand | libs/oracle/src/lib/transmit/transmit.service.ts:155-171 | the deviation test asks whether the median has left the band of alpha per thousand around the previous one, bounds included |
| Transmit.AcceptedIsFresh | libs/oracle/src/lib/transmit/transmit.service.ts:108-147 | acceptance implies strictly later than both |
| Transmit.EarliestTime | libs/oracle/src/lib/transmit/transmit.service.ts:268 | `peek` shows the least due time of the queue |
| PacemakerService.PacemakerService.Initialize | libs/oracle/src/lib/pacemaker/pacemaker.service.ts:106-153 | succeeds exactly when the chain has a report and the configuration can be read, and then leaves a consistent node and starts the progress timer; other aggregators' instances are untouched |
| PacemakerService.PacemakerService.SendNewEpoch | libs/oracle/src/lib/pacemaker/pacemaker.service.ts:188-196 | the fields and effects are those of the reaction |
| PacemakerService.PacemakerService.OnProgress | libs/oracle/src/lib/pacemaker/pacemaker.service.ts:180-186 | refines the reaction to `progress` |
| PacemakerService.PacemakerService.OnResendTimerTimeout | libs/oracle/src/lib/pacemaker/pacemaker.service.ts:198-202 | refines the reaction to the resend timer |
| PacemakerService.PacemakerService.OnProgressTimerTimeout | libs/oracle/src/lib/pacemaker/pacemaker.service.ts:204-220 | refines the reaction to the progress timer |
| PacemakerService.PacemakerService.OnChangeLeader | libs/oracle/src/lib/pacemaker/pacemaker.service.ts:222-238 | refines the reaction to `changeLeader` |
| PacemakerService.PacemakerService.OnNewEpochReceived | libs/oracle/src/lib/pacemaker/pacemaker.service.ts:240-259 | refines the reaction to a message, leaving other aggregators' instances alone |
| PacemakerService.PacemakerService.CheckAmplificationRule | libs/oracle/src/lib/pacemaker/pacemaker.service.ts:267-313 | the loop over sorted candidates refines the vote with quorum f |
| PacemakerService.PacemakerService.CheckAgreementRule | libs/oracle/src/lib/pacemaker/pacemaker.service.ts:321-409 | the loop and the instance restart refine agreement; `startReportGen` never throws here |
| Instances.ReportGenFactory.StartReportGen | libs/oracle/src/lib/reportgen/reportgen.factory.service.ts:24-48 | refuses exactly when the aggregator has an instance; otherwise adds a follower, and a leader exactly when this oracle leads |
| Instances.ReportGenFactory.StopReportGen | libs/oracle/src/lib/reportgen/reportgen.factory.service.ts:50-59 | removes exactly the aggregator's entries |
| FollowerService.ReportGenFollowerService.OnObserveReqReceived | libs/oracle/src/lib/reportgen/reportgen.follower.service.ts:152-209 | refines the reaction to an observation request |
| FollowerService.ReportGenFollowerService.OnReportReqReceived | libs/oracle/src/lib/reportgen/reportgen.follower.service.ts:229-311 | refines the reaction to a report request |
| FollowerService.ReportGenFollowerService.OnFinalReceived | libs/oracle/src/lib/reportgen/reportgen.follower.service.ts:330-392 | refines the reaction to a final |
| FollowerService.ReportGenFollowerService.OnFinalEchoReceived | libs/oracle/src/lib/reportgen/reportgen.follower.service.ts:413-516 | refines the reaction to an echo |
| FollowerService.ReportGenFollowerService.CompleteRound | libs/oracle/src/lib/reportgen/reportgen.follower.service.ts:624-627 | marks the round complete and reports progress |
| LeaderService.ReportGenLeaderService.OnObserve | libs/oracle/src/lib/reportgen/reportgen.leader.service.ts:161-245 | refines the reaction to an observation and keeps the phase invariant |
| LeaderService.ReportGenLeaderService.OnReport | libs/oracle/src/lib/reportgen/reportgen.leader.service.ts:268-375 | refines the reaction to a report and keeps the phase invariant |
| LeaderService.ReportGenLeaderService.OnStartEpoch | libs/oracle/src/lib/reportgen/reportgen.leader.service.ts:387-399 | refines the reaction to `startepoch` |
| LeaderService.ReportGenLeaderService.StartNextRound | libs/oracle/src/lib/reportgen/reportgen.leader.service.ts:409-423 | opens the next round with nothing collected |
| LeaderService.ReportGenLeaderService.OnTimerRoundTimeout | libs/oracle/src/lib/reportgen/reportgen.leader.service.ts:431-434 | refines the reaction to the round timer |
| LeaderService.ReportGenLeaderService.OnGraceTimerTimeout | libs/oracle/src/lib/reportgen/reportgen.leader.service.ts:445-461 | refines the reaction to the grace timer |
| TransmitService.Timer.Restart | libs/oracle/src/lib/pacemaker/timer.ts:6-9 | exactly one deadline is pending afterwards, after the given or else the default duration |
| TransmitService.Timer.Stop | libs/oracle/src/lib/pacemaker/timer.ts:11-15 | none is pending afterwards |
| TransmitService.TransmitService.OnTransmit | libs/oracle/src/lib/transmit/transmit.service.ts:99-256 | takes the deciding step of the transition system |
| TransmitService.TransmitService.QueueReport | libs/oracle/src/lib/transmit/transmit.service.ts:258-277 | queues the report for now plus this oracle's delay and arms the timer for the earliest entry: the queueing step |
| TransmitService.TransmitService.OnTransmitTimerTimeout | libs/oracle/src/lib/transmit/transmit.service.ts:321-328 | takes the firing step: pops an earliest entry |
| TransmitService.TransmitService.Send | libs/oracle/src/lib/transmit/transmit.service.ts:329-349 | submits nothing if and only if the chain has reached the report, otherwise exactly its maps |
| TransmitService.TransmitService.RestartForNext | libs/oracle/src/lib/transmit/transmit.service.ts:351-359 | takes the finishing step: re-arms for the earliest entry left |

## Left out

- Network layer (`node.service.ts`, `*.network.service.ts`, `stream-manager/`): pubsub, streams and JSON codecs; the model has authenticated senders and typed message values.
- Cryptography, Michelson packing and the chain client: abstract, as described under Assumptions.
- The `heap` and `seedrandom` libraries: an earliest-entry specification and arbitrary values in [0, 1).
- Data fetchers and `data.service.ts`: the observed price is an input.
- `tx-manager/`: submission ends at the maps handed to the chain client.
- `_packObservations` and `signOracleDataResponses`: nothing in the protocol calls them.
- `libs/contracts`, `indexer/`, configuration, logging, dependency injection, deployment scripts.
- Durations of the protocol timers: a timer may expire at any moment; only the transmit timer has a deadline.
- Ledger changes and restarts: `_updateOracleLedger` reads the same ledger every time.
- Exceptions of reads other than the configuration fetch of agreement, the data fetch of an observation, public keys, and the chain calls of the transmit timer: a handler that throws elsewhere before its first update simply has not run; one that throws later is not modelled.
- Rounding: `computeMedian` compares through a floating-point conversion and `BigNumber` divides to limited precision; the model is exact.
- PacemakerService.PacemakerService.Initialize: the listener registration is not part of its contract.
- Liveness (that timeouts eventually happen and messages eventually arrive): results are about what every finite run keeps, and about exchanges whose messages are delivered.
