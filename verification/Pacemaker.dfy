/** One pacemaker: the reaction of each handler to its state, and what every run of it keeps. */
module Pacemaker {
  import opened Options
  import opened Ledger
  import opened EpochRules
  import opened Instances

  datatype EpochAndLeader = EpochAndLeader(epoch: nat, leader: PeerId)

  datatype PacemakerConfig = PacemakerConfig(self: PeerId, aggregator: Address, ledger: seq<OracleInfo>)

  /** `current` is undefined until `initialize` has read the chain. `follower` and `leader` are the
      factory's entries for this aggregator; `configFailed` says that the latest agreement could not
      fetch the aggregator's configuration. */
  datatype PacemakerState = PacemakerState(
    current: Option<EpochAndLeader>,
    newEpoch: nat,
    peers: PeerEpochs,
    follower: Option<Instance>,
    leader: Option<Instance>,
    configFailed: bool)

  datatype Effect =
    | BroadcastNewEpoch(newEpoch: nat)
    | RestartProgressTimer
    | RestartResendTimer
    | StartEpoch(epoch: nat, leader: PeerId)

  datatype Reaction = Reaction(state: PacemakerState, effects: seq<Effect>)

  datatype Input =
    | Progress(aggregator: Address)
    | ChangeLeader(aggregator: Address)
    | ProgressTimeout
    | ResendTimeout
    | NewEpoch(from: PeerId, aggregator: Address, newEpoch: int, configOk: bool)

  function Max(a: int, b: int): int {
    if a < b then b else a
  }

  // ----- Handlers -----

  ghost function SendNewEpoch(s: PacemakerState, newEpoch: nat): Reaction {
    Reaction(s.(newEpoch := newEpoch), [BroadcastNewEpoch(newEpoch), RestartResendTimer])
  }

  /** Progress timeout and `changeLeader` propose the next epoch, unless a higher one is proposed already. */
  ghost function ProposeNext(s: PacemakerState): Reaction {
    match s.current
    case None => Reaction(s, [])
    case Some(current) =>
      var sent := SendNewEpoch(s, Max(current.epoch + 1, s.newEpoch));
      Reaction(sent.state, [RestartProgressTimer] + sent.effects)
  }

  ghost function Recorded(s: PacemakerState, from: PeerId, newEpoch: int): PacemakerState {
    var previous := if from in s.peers then s.peers[from] else 0;
    s.(peers := s.peers[from := Max(previous, newEpoch)])
  }

  ghost function Amplify(c: PacemakerConfig, s: PacemakerState): Reaction {
    if s.current.None? then Reaction(s, [])
    else
      var epoch := Pick(s.peers, s.newEpoch, FaultBound(c.ledger));
      if epoch == NO_EPOCH then Reaction(s, []) else SendNewEpoch(s, Max(epoch, s.newEpoch))
  }

  ghost function Agree(c: PacemakerConfig, s: PacemakerState, configOk: bool): Reaction
    requires 0 < |c.ledger|
  {
    if s.current.None? then Reaction(s, [])
    else
      var epoch := Pick(s.peers, s.current.value.epoch, 2 * FaultBound(c.ledger));
      if epoch == NO_EPOCH then Reaction(s, [])
      else
        var leader := LeaderForEpoch(c.ledger, epoch);
        var entered := s.(current := Some(EpochAndLeader(epoch, leader)), configFailed := !configOk);
        if !configOk then Reaction(entered, [])
        else
          var instance := Instance(epoch, leader);
          Reaction(
            entered.(newEpoch := Max(s.newEpoch, epoch),
                     follower := Some(instance),
                     leader := if leader == c.self then Some(instance) else None),
            [RestartProgressTimer] + if leader == c.self then [StartEpoch(epoch, leader)] else [])
  }

  ghost function OnNewEpoch(c: PacemakerConfig, s: PacemakerState, from: PeerId, aggregator: Address,
                            newEpoch: int, configOk: bool): Reaction
    requires 0 < |c.ledger|
  {
    if aggregator != c.aggregator || from !in PeerIds(c.ledger) then Reaction(s, [])
    else
      var amplified := Amplify(c, Recorded(s, from, newEpoch));
      var agreed := Agree(c, amplified.state, configOk);
      Reaction(agreed.state, amplified.effects + agreed.effects)
  }

  /** Whether a `newEpoch` message is about this aggregator and from a ledger member. */
  ghost predicate Accepted(c: PacemakerConfig, input: Input) {
    input.NewEpoch? && input.aggregator == c.aggregator && input.from in PeerIds(c.ledger)
  }

  ghost function React(c: PacemakerConfig, s: PacemakerState, input: Input): Reaction
    requires 0 < |c.ledger|
  {
    match input
    case Progress(aggregator) =>
      Reaction(s, if aggregator == c.aggregator then [RestartProgressTimer] else [])
    case ChangeLeader(aggregator) =>
      if aggregator == c.aggregator then ProposeNext(s) else Reaction(s, [])
    case ProgressTimeout => ProposeNext(s)
    case ResendTimeout => SendNewEpoch(s, s.newEpoch)
    case NewEpoch(from, aggregator, newEpoch, configOk) =>
      OnNewEpoch(c, s, from, aggregator, newEpoch, configOk)
  }

  const UNINITIALIZED := PacemakerState(None, 0, map[], None, None, false)

  /** The state a successful `initialize` leaves when the chain reports `epoch`. */
  ghost function Initialized(c: PacemakerConfig, epoch: nat): PacemakerState
    requires 0 < |c.ledger|
  {
    var leader := LeaderForEpoch(c.ledger, epoch);
    var instance := Instance(epoch, leader);
    PacemakerState(Some(EpochAndLeader(epoch, leader)), epoch, map[], Some(instance),
                   if leader == c.self then Some(instance) else None, false)
  }

  // ----- What every run keeps -----

  /** Exactly one follower instance exists, for the current epoch unless the latest configuration
      fetch failed; a leader instance exists exactly when that follower's leader is this oracle. */
  ghost predicate Lifecycle(c: PacemakerConfig, s: PacemakerState)
    requires 0 < |c.ledger|
  {
    && s.current.Some? && s.follower.Some?
    && s.follower.value.epoch <= s.current.value.epoch
    && (!s.configFailed ==> s.follower.value.epoch == s.current.value.epoch)
    && s.follower.value.leader == LeaderForEpoch(c.ledger, s.follower.value.epoch)
    && s.leader == if s.follower.value.leader == c.self then s.follower else None
  }

  ghost predicate NodeInv(c: PacemakerConfig, s: PacemakerState)
    requires 0 < |c.ledger|
  {
    && Lifecycle(c, s)
    && s.current.value.leader == LeaderForEpoch(c.ledger, s.current.value.epoch)
    && s.current.value.epoch <= s.newEpoch
    && s.peers.Keys <= PeerIds(c.ledger)
  }

  /** Amplification runs before agreement over the same votes, so the agreed epoch has already been
      proposed by this oracle, whatever the visiting order and whether or not the fetch succeeds. */
  lemma AgreedEpochIsProposed(c: PacemakerConfig, s: PacemakerState)
    requires 0 < |c.ledger| && s.current.Some? && s.current.value.epoch <= s.newEpoch
    ensures
      var amplified := Amplify(c, s).state;
      Pick(s.peers, s.current.value.epoch, 2 * FaultBound(c.ledger)) <= amplified.newEpoch
    ensures s.newEpoch <= Amplify(c, s).state.newEpoch
  {
    var f := FaultBound(c.ledger);
    if Pick(s.peers, s.current.value.epoch, 2 * f) > s.newEpoch {
      LowerQuorumPicksNoLess(s.peers, f, s.newEpoch, 2 * f, s.current.value.epoch);
    }
  }

  /** Each reaction keeps the node invariant, never lowers an epoch, and replaces the instances only
      by instances of a strictly higher epoch. */
  lemma ReactKeepsInv(c: PacemakerConfig, s: PacemakerState, input: Input)
    requires ValidLedger(c.ledger) && NodeInv(c, s)
    ensures
      var t := React(c, s, input).state;
      && NodeInv(c, t)
      && s.current.value.epoch <= t.current.value.epoch
      && s.newEpoch <= t.newEpoch
      && (t.follower == s.follower || s.follower.value.epoch < t.follower.value.epoch)
  {
    if Accepted(c, input) {
      AgreedEpochIsProposed(c, Recorded(s, input.from, input.newEpoch));
    }
  }

  /** What a reaction leaves recorded. */
  lemma ReactVotes(c: PacemakerConfig, s: PacemakerState, input: Input)
    requires 0 < |c.ledger|
    ensures React(c, s, input).state.peers ==
            if Accepted(c, input) then Recorded(s, input.from, input.newEpoch).peers else s.peers
  {
  }

  /** An oracle broadcasts nothing beyond the `newEpoch` it then holds. */
  lemma ReactBroadcasts(c: PacemakerConfig, s: PacemakerState, input: Input, v: nat)
    requires ValidLedger(c.ledger) && NodeInv(c, s)
    requires BroadcastNewEpoch(v) in React(c, s, input).effects
    ensures v <= React(c, s, input).state.newEpoch
  {
    if Accepted(c, input) {
      var amplified := Amplify(c, Recorded(s, input.from, input.newEpoch));
      assert BroadcastNewEpoch(v) !in Agree(c, amplified.state, input.configOk).effects;
      assert BroadcastNewEpoch(v) in amplified.effects;
    }
  }

  /** Agreement proposes nothing beyond what amplification did. */
  lemma ReceivedProposal(c: PacemakerConfig, s: PacemakerState, input: Input)
    requires ValidLedger(c.ledger) && NodeInv(c, s)
    requires Accepted(c, input)
    ensures
      var picked := Pick(Recorded(s, input.from, input.newEpoch).peers, s.newEpoch, FaultBound(c.ledger));
      React(c, s, input).state.newEpoch == if picked == NO_EPOCH then s.newEpoch else picked
  {
    AgreedEpochIsProposed(c, Recorded(s, input.from, input.newEpoch));
  }

  /** The epoch a message makes an oracle enter is the one agreement picks from the votes. */
  lemma ReceivedEpoch(c: PacemakerConfig, s: PacemakerState, input: Input)
    requires 0 < |c.ledger| && s.current.Some?
    requires Accepted(c, input)
    ensures
      var before, after := s.current, React(c, s, input).state.current;
      var picked :=
        Pick(Recorded(s, input.from, input.newEpoch).peers, before.value.epoch, 2 * FaultBound(c.ledger));
      after == if picked == NO_EPOCH then before
               else Some(EpochAndLeader(picked, LeaderForEpoch(c.ledger, picked)))
  {
  }

  /** A progress timeout or `changeLeader` proposes the epoch after the current one, or keeps and repeats
      a higher proposal; a resend repeats the proposal; each broadcasts exactly what it then proposes. */
  lemma TimeoutsProposeBeyondEpoch(c: PacemakerConfig, s: PacemakerState, input: Input)
    requires ValidLedger(c.ledger) && NodeInv(c, s)
    requires input.ProgressTimeout? || input.ResendTimeout? || (input.ChangeLeader? && input.aggregator == c.aggregator)
    ensures
      var r := React(c, s, input);
      && r.state == s.(newEpoch := r.state.newEpoch)
      && (forall v: nat :: BroadcastNewEpoch(v) in r.effects <==> v == r.state.newEpoch)
      && (if input.ResendTimeout? || s.newEpoch > s.current.value.epoch
          then r.state.newEpoch == s.newEpoch else r.state.newEpoch == s.current.value.epoch + 1)
  {
    var r := React(c, s, input);
    assert BroadcastNewEpoch(r.state.newEpoch) == r.effects[if input.ResendTimeout? then 0 else 1];
  }

  /** The recorded epoch of a peer never decreases, and after a message it is at least the one received. */
  lemma VotesOnlyGrow(c: PacemakerConfig, s: PacemakerState, input: Input, p: PeerId)
    requires 0 < |c.ledger| && p in s.peers
    ensures
      var votes := React(c, s, input).state.peers;
      && p in votes && s.peers[p] <= votes[p]
      && (Accepted(c, input) ==> input.from in votes && input.newEpoch <= votes[input.from])
      && (s.peers[p] < votes[p] ==> Accepted(c, input) && input.from == p && votes[p] == input.newEpoch)
  {
    ReactVotes(c, s, input);
  }

  /** Every `startepoch` event finds this oracle's leader instance with the same epoch and leader. */
  lemma StartEpochFindsLeader(c: PacemakerConfig, s: PacemakerState, input: Input, epoch: nat, leader: PeerId)
    requires ValidLedger(c.ledger) && NodeInv(c, s)
    requires StartEpoch(epoch, leader) in React(c, s, input).effects
    ensures React(c, s, input).state.leader == Some(Instance(epoch, leader))
    ensures leader == c.self == LeaderForEpoch(c.ledger, epoch)
  {
  }

  /** What a handled message makes an oracle do: broadcast exactly a raised proposal, restart the progress
      timer exactly when it entered an epoch whose configuration it could fetch, and emit `startepoch`
      exactly when it thereby started a leader instance. */
  lemma ReceivedEffects(c: PacemakerConfig, s: PacemakerState, input: Input)
    requires ValidLedger(c.ledger) && NodeInv(c, s) && Accepted(c, input)
    ensures
      var r := React(c, s, input);
      var t := r.state;
      && t.current.Some?
      && (forall v: nat :: BroadcastNewEpoch(v) in r.effects <==> t.newEpoch > s.newEpoch && v == t.newEpoch)
      && (RestartProgressTimer in r.effects <==> t.current.value.epoch > s.current.value.epoch && input.configOk)
      && (forall epoch: nat, leader: PeerId ::
            StartEpoch(epoch, leader) in r.effects <==> t.leader == Some(Instance(epoch, leader)) && t.leader != s.leader)
  {
    var recorded := Recorded(s, input.from, input.newEpoch);
    var amplified := Amplify(c, recorded);
    var agreed := Agree(c, amplified.state, input.configOk);
    assert React(c, s, input) == Reaction(agreed.state, amplified.effects + agreed.effects);
    AgreedEpochIsProposed(c, recorded);
    AmplifyEffects(c, recorded);
    AgreeEffects(c, amplified.state, input.configOk);
  }

  lemma AmplifyEffects(c: PacemakerConfig, s: PacemakerState)
    requires 0 < |c.ledger| && s.current.Some?
    ensures
      var r := Amplify(c, s);
      && r.state == s.(newEpoch := r.state.newEpoch) && s.newEpoch <= r.state.newEpoch
      && (forall v: nat :: BroadcastNewEpoch(v) in r.effects <==> r.state.newEpoch > s.newEpoch && v == r.state.newEpoch)
      && forall e :: e in r.effects ==> e.BroadcastNewEpoch? || e.RestartResendTimer?
  {
    var r := Amplify(c, s);
    if r.effects != [] {
      assert r.effects[0] == BroadcastNewEpoch(r.state.newEpoch);
    }
  }

  lemma AgreeEffects(c: PacemakerConfig, s: PacemakerState, configOk: bool)
    requires ValidLedger(c.ledger) && Lifecycle(c, s)
    requires Pick(s.peers, s.current.value.epoch, 2 * FaultBound(c.ledger)) <= s.newEpoch
    ensures
      var r := Agree(c, s, configOk);
      && r.state.current.Some? && r.state.newEpoch == s.newEpoch
      && (RestartProgressTimer in r.effects <==> r.state.current.value.epoch > s.current.value.epoch && configOk)
      && (forall epoch: nat, leader: PeerId ::
            StartEpoch(epoch, leader) in r.effects <==>
            r.state.leader == Some(Instance(epoch, leader)) && r.state.leader != s.leader)
      && forall e :: e in r.effects ==> e.RestartProgressTimer? || e.StartEpoch?
  {
    var r := Agree(c, s, configOk);
    if r.effects != [] {
      assert r.effects[0] == RestartProgressTimer;
      if |r.effects| == 2 {
        assert r.effects[1] == StartEpoch(r.state.current.value.epoch, c.self);
      }
    }
  }

  /** Whether an event is meant for this oracle: a timer, or about its aggregator and, for a message, from a
      ledger member. */
  ghost predicate Relevant(c: PacemakerConfig, input: Input) {
    match input
    case Progress(aggregator) => aggregator == c.aggregator
    case ChangeLeader(aggregator) => aggregator == c.aggregator
    case NewEpoch(from, aggregator, _, _) => aggregator == c.aggregator && from in PeerIds(c.ledger)
    case _ => true
  }

  /** Which timers a handler restarts: the progress timer on progress, on its own expiry, on a leader
      change, and on entering an epoch that could be configured; the resend timer with every broadcast.
      Irrelevant events do nothing, and progress changes no field. */
  lemma TimersExactly(c: PacemakerConfig, s: PacemakerState, input: Input)
    requires ValidLedger(c.ledger) && NodeInv(c, s)
    ensures
      var r := React(c, s, input);
      && r.state.current.Some?
      && (RestartProgressTimer in r.effects <==>
          Relevant(c, input) && !input.ResendTimeout? &&
          (input.NewEpoch? ==> r.state.current.value.epoch > s.current.value.epoch && input.configOk))
      && (RestartResendTimer in r.effects <==> exists v: nat :: BroadcastNewEpoch(v) in r.effects)
      && (!Relevant(c, input) ==> r == Reaction(s, []))
      && (input.Progress? ==> r.state == s)
  {
    var r := React(c, s, input);
    if Accepted(c, input) {
      ReceivedEffects(c, s, input);
      MessageResends(c, s, input);
    } else if r.effects != [] {
      assert r.effects[0] == RestartProgressTimer || r.effects[0] == BroadcastNewEpoch(r.state.newEpoch);
      if |r.effects| > 1 {
        assert r.effects[|r.effects| - 1] == RestartResendTimer;
        assert r.effects[|r.effects| - 2] == BroadcastNewEpoch(r.state.newEpoch);
      }
    }
  }

  lemma MessageResends(c: PacemakerConfig, s: PacemakerState, input: Input)
    requires ValidLedger(c.ledger) && NodeInv(c, s) && Accepted(c, input)
    ensures
      var effects := React(c, s, input).effects;
      RestartResendTimer in effects <==> exists v: nat :: BroadcastNewEpoch(v) in effects
  {
    var recorded := Recorded(s, input.from, input.newEpoch);
    var amplified := Amplify(c, recorded);
    var agreed := Agree(c, amplified.state, input.configOk);
    assert React(c, s, input).effects == amplified.effects + agreed.effects;
    AgreedEpochIsProposed(c, recorded);
    AgreeEffects(c, amplified.state, input.configOk);
    if amplified.effects != [] {
      assert amplified.effects[0] == BroadcastNewEpoch(amplified.state.newEpoch);
      assert amplified.effects[1] == RestartResendTimer;
      assert (amplified.effects + agreed.effects)[0] == BroadcastNewEpoch(amplified.state.newEpoch);
      assert (amplified.effects + agreed.effects)[1] == RestartResendTimer;
    }
  }

  /** What entering an epoch does to the instances: with a configuration, exactly this epoch's follower
      and, if this oracle leads it, leader; without one, nothing but remembering the failure. */
  lemma InstancesExactly(c: PacemakerConfig, s: PacemakerState, input: Input)
    requires ValidLedger(c.ledger) && NodeInv(c, s)
    ensures
      var t := React(c, s, input).state;
      && t.current.Some?
      && if t.current == s.current then
           t.follower == s.follower && t.leader == s.leader && t.configFailed == s.configFailed
         else
           && Accepted(c, input) && t.current.value.epoch > s.current.value.epoch
           && t.configFailed == !input.configOk
           && if input.configOk then
                var instance := Instance(t.current.value.epoch, t.current.value.leader);
                t.follower == Some(instance) && t.leader == if instance.leader == c.self then Some(instance) else None
              else t.follower == s.follower && t.leader == s.leader
  {
    if Accepted(c, input) {
      ReceivedEpoch(c, s, input);
    }
  }

  /** What is recorded for the sender of a message: the highest epoch it has ever sent, and nothing
      changes for the others. */
  lemma RecordedExactly(c: PacemakerConfig, s: PacemakerState, input: Input)
    requires 0 < |c.ledger| && Accepted(c, input)
    ensures
      var votes := React(c, s, input).state.peers;
      && votes.Keys == s.peers.Keys + {input.from}
      && (forall p :: p in s.peers && p != input.from ==> votes[p] == s.peers[p])
      && (if input.from in s.peers && input.newEpoch <= s.peers[input.from] then votes[input.from] == s.peers[input.from]
          else if input.newEpoch < 0 then votes[input.from] == 0
          else votes[input.from] == input.newEpoch)
  {
    ReactVotes(c, s, input);
  }

  /** A pacemaker starts in the epoch of the chain, proposes exactly that, has heard nothing, and runs
      that epoch's instances. */
  lemma InitializedExactly(c: PacemakerConfig, epoch: nat)
    requires ValidLedger(c.ledger)
    ensures
      var s := Initialized(c, epoch);
      && NodeInv(c, s) && s.current.value.epoch == epoch == s.newEpoch
      && s.peers == map[] && s.follower.value.epoch == epoch && !s.configFailed
  {
  }

  /** After a handled message at most f votes exceed `newEpoch` exactly when no candidate outranks, as
      a string, the larger (f+1)-th vote. */
  lemma ProposalsExhaustedExactly(c: PacemakerConfig, s: PacemakerState, input: Input)
    requires ValidLedger(c.ledger) && NodeInv(c, s) && Accepted(c, input)
    ensures
      var votes := Recorded(s, input.from, input.newEpoch).peers;
      |Supporters(votes, React(c, s, input).state.newEpoch + 1)| <= FaultBound(c.ledger) <==>
      VisitedInOrder(votes, s.newEpoch, FaultBound(c.ledger))
  {
    ReceivedProposal(c, s, input);
    PickExhaustsExactly(Recorded(s, input.from, input.newEpoch).peers, s.newEpoch, FaultBound(c.ledger));
  }

  /** Likewise at most 2f votes exceed the epoch, for the (2f+1)-th vote. */
  lemma AgreementsExhaustedExactly(c: PacemakerConfig, s: PacemakerState, input: Input)
    requires ValidLedger(c.ledger) && NodeInv(c, s) && Accepted(c, input)
    ensures
      var votes := Recorded(s, input.from, input.newEpoch).peers;
      var t := React(c, s, input).state;
      t.current.Some? &&
      (|Supporters(votes, t.current.value.epoch + 1)| <= 2 * FaultBound(c.ledger) <==>
       VisitedInOrder(votes, s.current.value.epoch, 2 * FaultBound(c.ledger)))
  {
    ReceivedEpoch(c, s, input);
    PickExhaustsExactly(
      Recorded(s, input.from, input.newEpoch).peers, s.current.value.epoch, 2 * FaultBound(c.ledger));
  }

  /** A node whose votes hold more than 2f entries above its epoch leaves that epoch in the same
      handler, and one whose votes hold more than f entries above `newEpoch` raises `newEpoch`. */
  lemma SupportedVotesMakeProgress(c: PacemakerConfig, s: PacemakerState, input: Input)
    requires ValidLedger(c.ledger) && NodeInv(c, s) && Accepted(c, input)
    ensures
      var votes := Recorded(s, input.from, input.newEpoch).peers;
      var t := React(c, s, input).state;
      && t.current.Some?
      && (t.current.value.epoch > s.current.value.epoch <==>
          |Supporters(votes, s.current.value.epoch + 1)| > 2 * FaultBound(c.ledger))
      && (t.newEpoch > s.newEpoch <==> |Supporters(votes, s.newEpoch + 1)| > FaultBound(c.ledger))
  {
    var votes := Recorded(s, input.from, input.newEpoch).peers;
    ReceivedProposal(c, s, input);
    ReceivedEpoch(c, s, input);
    PickSucceedsExactly(votes, s.current.value.epoch, 2 * FaultBound(c.ledger));
    PickSucceedsExactly(votes, s.newEpoch, FaultBound(c.ledger));
  }
}

/** The service object whose handlers compute those reactions. */
module PacemakerService {
  import opened Options
  import opened Ledger
  import opened EpochRules
  import opened Instances
  import opened Pacemaker

  class PacemakerService {
    const config: PacemakerConfig
    const factory: ReportGenFactory
    var epochAndLeader: Option<EpochAndLeader>
    var newEpoch: nat
    var peersNewEpoch: PeerEpochs
    ghost var configFailed: bool

    ghost predicate Valid()
      reads this
    {
      ValidLedger(config.ledger) && factory.peerId == config.self
    }

    ghost function State(): PacemakerState
      reads this, factory
    {
      var a := config.aggregator;
      PacemakerState(
        epochAndLeader, newEpoch, peersNewEpoch,
        if a in factory.reportgenFollowers then Some(factory.reportgenFollowers[a]) else None,
        if a in factory.reportgenLeaders then Some(factory.reportgenLeaders[a]) else None,
        configFailed)
    }

    /** The instances of other aggregators, run by other pacemakers of the same oracle. */
    ghost function Others(): (map<Address, Instance>, map<Address, Instance>)
      reads factory
    {
      (factory.reportgenFollowers - {config.aggregator}, factory.reportgenLeaders - {config.aggregator})
    }

    constructor (config: PacemakerConfig, factory: ReportGenFactory)
      requires ValidLedger(config.ledger) && factory.peerId == config.self
      ensures Valid() && this.config == config && this.factory == factory
      ensures epochAndLeader == None && newEpoch == 0 && peersNewEpoch == map[] && !configFailed
    {
      this.config, this.factory := config, factory;
      epochAndLeader, newEpoch, peersNewEpoch, configFailed := None, 0, map[], false;
    }

    /** `chainEpoch` is the epoch of the last report on chain, undefined when there is none. */
    method Initialize(chainEpoch: Option<nat>, configOk: bool) returns (ok: bool, effects: seq<Effect>)
      requires Valid() && State() == UNINITIALIZED
      modifies this, factory
      ensures Valid() && Others() == old(Others())
      ensures ok <==> chainEpoch.Some? && configOk
      ensures ok ==> State() == Initialized(config, chainEpoch.value) && NodeInv(config, State())
      ensures !ok ==> State().follower == None && State().leader == None
      ensures effects == if ok then [RestartProgressTimer] else []
    {
      effects := [];
      if chainEpoch == None {
        return false, [];
      }
      var epoch := chainEpoch.value;
      epochAndLeader := Some(EpochAndLeader(epoch, LeaderForEpoch(config.ledger, epoch)));
      newEpoch := epoch;
      if !configOk {
        return false, [];
      }
      ok := factory.StartReportGen(config.aggregator, Instance(epoch, epochAndLeader.value.leader));
      effects := [RestartProgressTimer];
      assert factory.reportgenFollowers - {config.aggregator} == old(factory.reportgenFollowers) - {config.aggregator};
      assert factory.reportgenLeaders - {config.aggregator} == old(factory.reportgenLeaders) - {config.aggregator};
    }

    method SendNewEpoch(epoch: nat) returns (effects: seq<Effect>)
      modifies this`newEpoch
      ensures Reaction(State(), effects) == Pacemaker.SendNewEpoch(old(State()), epoch)
    {
      effects := [BroadcastNewEpoch(epoch)];
      newEpoch := epoch;
      effects := effects + [RestartResendTimer];
    }

    method OnProgress(aggregator: Address) returns (effects: seq<Effect>)
      requires Valid()
      ensures Reaction(State(), effects) == React(config, State(), Progress(aggregator))
    {
      effects := [];
      if aggregator != config.aggregator {
        return;
      }
      effects := [RestartProgressTimer];
    }

    method OnResendTimerTimeout() returns (effects: seq<Effect>)
      requires Valid()
      modifies this`newEpoch
      ensures Reaction(State(), effects) == React(config, old(State()), ResendTimeout)
    {
      effects := SendNewEpoch(newEpoch);
    }

    method OnProgressTimerTimeout() returns (effects: seq<Effect>)
      requires Valid()
      modifies this`newEpoch
      ensures Reaction(State(), effects) == React(config, old(State()), ProgressTimeout)
    {
      effects := [];
      if epochAndLeader == None {
        return;
      }
      var epoch := epochAndLeader.value.epoch;
      effects := SendNewEpoch(Max(epoch + 1, newEpoch));
      effects := [RestartProgressTimer] + effects;
    }

    method OnChangeLeader(aggregator: Address) returns (effects: seq<Effect>)
      requires Valid()
      modifies this`newEpoch
      ensures Reaction(State(), effects) == React(config, old(State()), ChangeLeader(aggregator))
    {
      effects := [];
      if epochAndLeader == None || aggregator != config.aggregator {
        return;
      }
      var epoch := epochAndLeader.value.epoch;
      effects := SendNewEpoch(Max(epoch + 1, newEpoch));
      effects := [RestartProgressTimer] + effects;
    }

    method OnNewEpochReceived(from: PeerId, aggregator: Address, received: int, configOk: bool)
      returns (effects: seq<Effect>)
      requires Valid()
      modifies this, factory
      ensures Valid() && Others() == old(Others())
      ensures Reaction(State(), effects) ==
              React(config, old(State()), NewEpoch(from, aggregator, received, configOk))
    {
      effects := [];
      if aggregator != config.aggregator {
        return;
      }
      if from !in PeerIds(config.ledger) {
        return;
      }
      var previous := if from in peersNewEpoch then peersNewEpoch[from] else 0;
      peersNewEpoch := peersNewEpoch[from := Max(previous, received)];
      var amplified := CheckAmplificationRule();
      var agreed := CheckAgreementRule(configOk);
      effects := amplified + agreed;
    }

    method CheckAmplificationRule() returns (effects: seq<Effect>)
      requires Valid()
      modifies this`newEpoch
      ensures Reaction(State(), effects) == Amplify(config, old(State()))
    {
      effects := [];
      if epochAndLeader == None {
        return;
      }
      var epoch := FirstSupported(peersNewEpoch, newEpoch, FaultBound(config.ledger));
      if epoch == NO_EPOCH {
        return;
      }
      effects := SendNewEpoch(Max(epoch, newEpoch));
    }

    method CheckAgreementRule(configOk: bool) returns (effects: seq<Effect>)
      requires Valid()
      modifies this, factory
      ensures Valid() && Others() == old(Others())
      ensures Reaction(State(), effects) == Agree(config, old(State()), configOk)
    {
      effects := [];
      if epochAndLeader == None {
        return;
      }
      var epoch := FirstSupported(peersNewEpoch, epochAndLeader.value.epoch, 2 * FaultBound(config.ledger));
      if epoch == NO_EPOCH {
        return;
      }
      epochAndLeader := Some(EpochAndLeader(epoch, LeaderForEpoch(config.ledger, epoch)));
      configFailed := !configOk;
      if !configOk {
        return;
      }
      factory.StopReportGen(config.aggregator);
      newEpoch := Max(newEpoch, epoch);
      var started := factory.StartReportGen(config.aggregator, Instance(epoch, epochAndLeader.value.leader));
      assert started;
      assert factory.reportgenFollowers - {config.aggregator} == old(factory.reportgenFollowers) - {config.aggregator};
      assert factory.reportgenLeaders - {config.aggregator} == old(factory.reportgenLeaders) - {config.aggregator};
      effects := [RestartProgressTimer];
      if epochAndLeader.value.leader == config.self {
        effects := effects + [StartEpoch(epoch, epochAndLeader.value.leader)];
      }
    }
  }
}
