/** All correct pacemakers of one aggregator over an asynchronous network. A message, once sent, may be
    delivered to anybody any number of times, in any order or never; faulty oracles and outsiders
    send anything under their own identity. */
module PacemakerSystem {
  import opened Options
  import opened Ledger
  import opened EpochRules
  import opened Networks
  import opened Pacemaker

  ghost function ConfigOf(net: Network, p: PeerId): PacemakerConfig {
    PacemakerConfig(p, net.aggregator, net.ledger)
  }

  /** The pacemakers started so far, and every `newEpoch` message correct oracles have broadcast. */
  datatype System = System(nodes: map<PeerId, PacemakerState>, sent: set<(PeerId, nat)>)

  /** An oracle starts, at whatever epoch the chain shows it then, or handles an event. */
  datatype Step =
    | Start(oracle: PeerId, epoch: nat)
    | Handle(oracle: PeerId, input: Input)

  const INITIAL := System(map[], {})

  ghost function Broadcasts(p: PeerId, effects: seq<Effect>): set<(PeerId, nat)> {
    set e | e in effects && e.BroadcastNewEpoch? :: (p, e.newEpoch)
  }

  /** Messages in the name of a correct oracle are ones it sent. */
  ghost predicate Authentic(net: Network, s: System, input: Input) {
    input.NewEpoch? && input.from in net.Correct() && input.aggregator == net.aggregator ==>
      0 <= input.newEpoch && (input.from, input.newEpoch as nat) in s.sent
  }

  ghost function Started(net: Network, s: System, p: PeerId, epoch: nat): System
    requires net.Valid()
  {
    s.(nodes := s.nodes[p := Initialized(ConfigOf(net, p), epoch)])
  }

  ghost function Applied(s: System, p: PeerId, r: Reaction): System {
    System(s.nodes[p := r.state], s.sent + Broadcasts(p, r.effects))
  }

  ghost predicate Next(net: Network, s: System, t: System, step: Step)
    requires net.Valid()
  {
    match step
    case Start(p, epoch) =>
      p in net.Correct() && p !in s.nodes && t == Started(net, s, p, epoch)
    case Handle(p, input) =>
      p in s.nodes && Authentic(net, s, input) &&
      t == Applied(s, p, React(ConfigOf(net, p), s.nodes[p], input))
  }

  ghost predicate IsRun(net: Network, states: seq<System>, steps: seq<Step>)
    requires net.Valid()
  {
    && |states| == |steps| + 1
    && states[0] == INITIAL
    && forall i :: 0 <= i < |steps| ==> Next(net, states[i], states[i + 1], steps[i])
  }

  // ----- Invariant -----

  /** Every vote of a correct oracle is at most what that oracle itself has proposed. */
  ghost predicate Backed(net: Network, s: System, votes: PeerEpochs) {
    && votes.Keys <= PeerIds(net.ledger)
    && forall p :: p in votes && p in net.Correct() ==> p in s.nodes && votes[p] <= s.nodes[p].newEpoch
  }

  ghost predicate NodeOk(net: Network, s: System, p: PeerId)
    requires net.Valid() && p in s.nodes
  {
    p in net.Correct() && NodeInv(ConfigOf(net, p), s.nodes[p]) && Backed(net, s, s.nodes[p].peers)
  }

  ghost predicate NodesInv(net: Network, s: System)
    requires net.Valid()
  {
    forall p :: p in s.nodes ==> NodeOk(net, s, p)
  }

  ghost predicate SentInv(s: System) {
    forall m :: m in s.sent ==> m.0 in s.nodes && m.1 <= s.nodes[m.0].newEpoch
  }

  ghost predicate InEpoch(s: System, p: PeerId, epoch: nat) {
    p in s.nodes && s.nodes[p].current.Some? && s.nodes[p].current.value.epoch == epoch
  }

  /** `top` is the highest epoch any correct oracle is in; nobody proposes more than one above it. */
  ghost predicate SkewInv(s: System, top: nat) {
    && (s.nodes == map[] || exists p :: InEpoch(s, p, top))
    && forall p :: p in s.nodes ==>
      s.nodes[p].current.Some? && s.nodes[p].current.value.epoch <= top && s.nodes[p].newEpoch <= top + 1
  }

  ghost predicate Inv(net: Network, s: System, top: nat)
    requires net.Valid()
  {
    NodesInv(net, s) && SentInv(s) && SkewInv(s, top)
  }

  // ----- Votes -----

  lemma RecordedBacked(net: Network, s: System, votes: PeerEpochs, from: PeerId, vote: nat)
    requires Backed(net, s, votes) && from in PeerIds(net.ledger)
    requires from in net.Correct() ==> from in s.nodes && vote <= s.nodes[from].newEpoch
    ensures Backed(net, s, votes[from := vote])
  {
  }

  /** The correct oracles that have proposed at least `epoch`. */
  ghost function Proposers(s: System, epoch: int): set<PeerId> {
    set p | p in s.nodes && s.nodes[p].newEpoch >= epoch
  }

  lemma BackedSupporters(net: Network, s: System, votes: PeerEpochs, epoch: int)
    requires net.Valid() && Backed(net, s, votes)
    ensures |Proposers(s, epoch)| >= |Supporters(votes, epoch)| - FaultBound(net.ledger)
  {
    CorrectPartSize(Supporters(votes, epoch), net.faulty);
    SubsetSize(Supporters(votes, epoch) - net.faulty, Proposers(s, epoch));
  }

  lemma PickIsProposed(net: Network, s: System, votes: PeerEpochs, bound: nat, threshold: int)
    requires net.Valid() && Backed(net, s, votes) && FaultBound(net.ledger) <= threshold
    requires Pick(votes, bound, threshold) != NO_EPOCH
    ensures |Proposers(s, Pick(votes, bound, threshold))| > threshold - FaultBound(net.ledger)
    ensures exists p :: p in Proposers(s, Pick(votes, bound, threshold))
  {
    var epoch := Pick(votes, bound, threshold);
    assert Supported(votes, bound, threshold, epoch);
    BackedSupporters(net, s, votes, epoch);
    assert Proposers(s, epoch) != {};
  }

  // ----- One reaction inside the system -----

  /** What the system needs to know of the reaction of oracle `p` to an event. */
  ghost predicate Sound(net: Network, s: System, p: PeerId, r: Reaction)
    requires net.Valid() && p in s.nodes
  {
    var n := s.nodes[p];
    && NodeInv(ConfigOf(net, p), r.state) && n.current.Some?
    && n.current.value.epoch <= r.state.current.value.epoch
    && n.newEpoch <= r.state.newEpoch
    && Backed(net, s, r.state.peers)
    && forall v: nat :: BroadcastNewEpoch(v) in r.effects ==> v <= r.state.newEpoch
  }

  lemma ReactSound(net: Network, s: System, p: PeerId, input: Input)
    requires net.Valid() && NodesInv(net, s) && SentInv(s) && p in s.nodes && Authentic(net, s, input)
    ensures Sound(net, s, p, React(ConfigOf(net, p), s.nodes[p], input))
  {
    assert NodeOk(net, s, p);
    var c, n := ConfigOf(net, p), s.nodes[p];
    ReactKeepsInv(c, n, input);
    ReactVotes(c, n, input);
    var r := React(c, n, input);
    forall v: nat | BroadcastNewEpoch(v) in r.effects ensures v <= r.state.newEpoch {
      ReactBroadcasts(c, n, input, v);
    }
    if Accepted(c, input) {
      ReceivedBacked(net, s, p, n.peers, input);
    }
  }

  lemma ReceivedBacked(net: Network, s: System, p: PeerId, votes: PeerEpochs, input: Input)
    requires net.Valid() && SentInv(s) && Authentic(net, s, input) && Backed(net, s, votes)
    requires Accepted(ConfigOf(net, p), input)
    ensures
      var previous := if input.from in votes then votes[input.from] else 0;
      Backed(net, s, votes[input.from := Max(previous, input.newEpoch)])
  {
    var from := input.from;
    var previous := if from in votes then votes[from] else 0;
    if from in net.Correct() {
      assert (from, input.newEpoch as nat) in s.sent;
    }
    RecordedBacked(net, s, votes, from, Max(previous, input.newEpoch));
  }

  /** A received message makes an oracle propose at most what some correct oracle already proposes. */
  lemma ReceiveProposesNothingNew(net: Network, s: System, p: PeerId, input: Input)
    requires net.Valid() && NodesInv(net, s) && SentInv(s) && p in s.nodes && Authentic(net, s, input)
    requires input.NewEpoch?
    ensures exists q :: q in Proposers(s, React(ConfigOf(net, p), s.nodes[p], input).state.newEpoch)
  {
    assert NodeOk(net, s, p);
    var c, n := ConfigOf(net, p), s.nodes[p];
    assert p in Proposers(s, n.newEpoch);
    if Accepted(c, input) {
      var f := FaultBound(c.ledger);
      ReceivedBacked(net, s, p, n.peers, input);
      var votes := Recorded(n, input.from, input.newEpoch).peers;
      ReceivedProposal(c, n, input);
      CorrectMajority(net.ledger, net.faulty);
      if Pick(votes, n.newEpoch, f) != NO_EPOCH {
        PickIsProposed(net, s, votes, n.newEpoch, f);
      }
    }
  }

  /** An oracle enters an epoch only once f + 1 correct oracles already propose it. */
  lemma EnterNeedsProposers(net: Network, s: System, p: PeerId, input: Input)
    requires net.Valid() && NodesInv(net, s) && SentInv(s) && p in s.nodes && Authentic(net, s, input)
    ensures
      var t := React(ConfigOf(net, p), s.nodes[p], input).state;
      t.current == s.nodes[p].current ||
      (t.current.Some? && |Proposers(s, t.current.value.epoch)| >= FaultBound(net.ledger) + 1)
  {
    assert NodeOk(net, s, p);
    var c, n := ConfigOf(net, p), s.nodes[p];
    if Accepted(c, input) {
      var f := FaultBound(c.ledger);
      CorrectMajority(net.ledger, net.faulty);
      ReceivedBacked(net, s, p, n.peers, input);
      var votes := Recorded(n, input.from, input.newEpoch).peers;
      ReceivedEpoch(c, n, input);
      if Pick(votes, n.current.value.epoch, 2 * f) != NO_EPOCH {
        PickIsProposed(net, s, votes, n.current.value.epoch, 2 * f);
      }
    }
  }

  // ----- Preservation -----

  lemma GrowKeepsBacked(net: Network, s: System, t: System, votes: PeerEpochs)
    requires Backed(net, s, votes) && s.nodes.Keys <= t.nodes.Keys
    requires forall p :: p in s.nodes ==> s.nodes[p].newEpoch <= t.nodes[p].newEpoch
    ensures Backed(net, t, votes)
  {
  }

  lemma GrowKeepsNode(net: Network, s: System, t: System, p: PeerId)
    requires net.Valid() && p in s.nodes && NodeOk(net, s, p)
    requires s.nodes.Keys <= t.nodes.Keys && t.nodes[p] == s.nodes[p]
    requires forall q :: q in s.nodes ==> s.nodes[q].newEpoch <= t.nodes[q].newEpoch
    ensures NodeOk(net, t, p)
  {
    GrowKeepsBacked(net, s, t, s.nodes[p].peers);
  }

  lemma AppliedKeepsNodes(net: Network, s: System, p: PeerId, r: Reaction)
    requires net.Valid() && NodesInv(net, s) && p in s.nodes && Sound(net, s, p, r)
    ensures NodesInv(net, Applied(s, p, r))
  {
    var t := Applied(s, p, r);
    assert NodeOk(net, s, p);
    GrowKeepsBacked(net, s, t, r.state.peers);
    forall q | q in t.nodes && q != p ensures NodeOk(net, t, q) {
      GrowKeepsNode(net, s, t, q);
    }
  }

  lemma AppliedKeepsSent(net: Network, s: System, p: PeerId, r: Reaction)
    requires net.Valid() && SentInv(s) && p in s.nodes && Sound(net, s, p, r)
    ensures SentInv(Applied(s, p, r))
  {
  }

  /** The highest epoch after a reaction. */
  ghost function NewTop(top: nat, r: Reaction): nat
    requires r.state.current.Some?
  {
    Max(top, r.state.current.value.epoch)
  }

  lemma AppliedKeepsSkew(net: Network, s: System, p: PeerId, r: Reaction, top: nat)
    requires net.Valid() && SkewInv(s, top) && p in s.nodes && Sound(net, s, p, r)
    requires r.state.newEpoch <= top + 1
    ensures SkewInv(Applied(s, p, r), NewTop(top, r))
  {
    var t := Applied(s, p, r);
    var q :| InEpoch(s, q, top);
    if r.state.current.value.epoch >= top {
      assert InEpoch(t, p, NewTop(top, r));
    } else {
      assert InEpoch(t, q, top);
    }
  }

  lemma ReactStaysNear(net: Network, s: System, p: PeerId, input: Input, top: nat)
    requires net.Valid() && Inv(net, s, top) && p in s.nodes && Authentic(net, s, input)
    ensures React(ConfigOf(net, p), s.nodes[p], input).state.newEpoch <= top + 1
  {
    if input.NewEpoch? {
      ReceiveProposesNothingNew(net, s, p, input);
      var q :| q in Proposers(s, React(ConfigOf(net, p), s.nodes[p], input).state.newEpoch);
    }
  }

  lemma StartKeepsNodes(net: Network, s: System, p: PeerId, epoch: nat)
    requires net.Valid() && NodesInv(net, s) && p in net.Correct() && p !in s.nodes
    ensures NodesInv(net, Started(net, s, p, epoch))
  {
    var t := Started(net, s, p, epoch);
    forall q | q in t.nodes ensures NodeOk(net, t, q) {
      if q != p {
        assert NodeOk(net, s, q);
        GrowKeepsNode(net, s, t, q);
      }
    }
  }

  lemma StartKeepsSkew(net: Network, s: System, p: PeerId, epoch: nat, top: nat)
    requires net.Valid() && SkewInv(s, top) && p !in s.nodes
    ensures SkewInv(Started(net, s, p, epoch), if s.nodes == map[] then epoch else Max(top, epoch))
  {
    var t := Started(net, s, p, epoch);
    assert InEpoch(t, p, epoch);
    if s.nodes != map[] {
      var q :| InEpoch(s, q, top);
      assert InEpoch(t, q, top);
    }
  }

  lemma HandleKeepsInv(net: Network, s: System, p: PeerId, input: Input, top: nat)
    requires net.Valid() && Inv(net, s, top) && p in s.nodes && Authentic(net, s, input)
    ensures
      var r := React(ConfigOf(net, p), s.nodes[p], input);
      r.state.current.Some? && Inv(net, Applied(s, p, r), NewTop(top, r))
  {
    ReactSound(net, s, p, input);
    ReactStaysNear(net, s, p, input, top);
    var r := React(ConfigOf(net, p), s.nodes[p], input);
    AppliedKeepsNodes(net, s, p, r);
    AppliedKeepsSent(net, s, p, r);
    AppliedKeepsSkew(net, s, p, r, top);
  }

  lemma StartKeepsSent(net: Network, s: System, p: PeerId, epoch: nat)
    requires net.Valid() && SentInv(s) && p !in s.nodes
    ensures SentInv(Started(net, s, p, epoch))
  {
  }

  lemma StartKeepsInv(net: Network, s: System, p: PeerId, epoch: nat, top: nat)
    requires net.Valid() && Inv(net, s, top) && p in net.Correct() && p !in s.nodes
    ensures Inv(net, Started(net, s, p, epoch), if s.nodes == map[] then epoch else Max(top, epoch))
  {
    StartKeepsNodes(net, s, p, epoch);
    StartKeepsSkew(net, s, p, epoch, top);
    StartKeepsSent(net, s, p, epoch);
  }

  lemma NextKeepsInv(net: Network, s: System, t: System, step: Step, top: nat) returns (top': nat)
    requires net.Valid() && Inv(net, s, top) && Next(net, s, t, step)
    ensures Inv(net, t, top')
  {
    match step
    case Start(p, epoch) =>
      StartKeepsInv(net, s, p, epoch, top);
      top' := if s.nodes == map[] then epoch else Max(top, epoch);
    case Handle(p, input) =>
      HandleKeepsInv(net, s, p, input, top);
      top' := NewTop(top, React(ConfigOf(net, p), s.nodes[p], input));
  }

  lemma {:induction false} RunKeepsInv(net: Network, states: seq<System>, steps: seq<Step>, k: nat) returns (top: nat)
    requires net.Valid() && IsRun(net, states, steps) && k < |states|
    ensures Inv(net, states[k], top)
  {
    if k == 0 {
      top := 0;
    } else {
      var before := RunKeepsInv(net, states, steps, k - 1);
      top := NextKeepsInv(net, states[k - 1], states[k], steps[k - 1], before);
    }
  }

  // ----- Results over whole runs -----

  /** Every correct oracle, in every reachable state: epoch at most `newEpoch`, votes of ledger members
      only, and exactly the instances its epoch and its latest configuration fetch call for. */
  lemma NodesStayConsistent(net: Network, states: seq<System>, steps: seq<Step>, k: nat, p: PeerId)
    requires net.Valid() && IsRun(net, states, steps) && k < |states| && p in states[k].nodes
    ensures p in net.Correct() && NodeInv(ConfigOf(net, p), states[k].nodes[p])
  {
    var top := RunKeepsInv(net, states, steps, k);
    assert NodeOk(net, states[k], p);
  }

  ghost predicate IsMaxEpoch(s: System, epoch: nat) {
    && (forall p, e: nat :: InEpoch(s, p, e) ==> e <= epoch)
    && (exists p :: InEpoch(s, p, epoch))
  }

  ghost predicate IsMaxNewEpoch(s: System, newEpoch: nat) {
    && (forall p :: p in s.nodes ==> s.nodes[p].newEpoch <= newEpoch)
    && (exists p :: p in s.nodes && s.nodes[p].newEpoch == newEpoch)
  }

  lemma TopIsMaxEpoch(net: Network, s: System, top: nat, epoch: nat)
    requires net.Valid() && Inv(net, s, top) && IsMaxEpoch(s, epoch)
    ensures top == epoch
  {
    var p :| InEpoch(s, p, epoch);
    var q :| InEpoch(s, q, top);
  }

  /** In every reachable state the highest proposal is the highest epoch or the one after it, however
      the faulty oracles vote and whenever the correct ones were started. */
  lemma SkewBound(net: Network, states: seq<System>, steps: seq<Step>, k: nat, epoch: nat, newEpoch: nat)
    requires net.Valid() && IsRun(net, states, steps) && k < |states|
    requires IsMaxEpoch(states[k], epoch) && IsMaxNewEpoch(states[k], newEpoch)
    ensures epoch <= newEpoch <= epoch + 1
  {
    var s := states[k];
    var top := RunKeepsInv(net, states, steps, k);
    TopIsMaxEpoch(net, s, top, epoch);
    var r :| InEpoch(s, r, epoch);
    assert NodeOk(net, s, r);
  }

  /** No message raises the highest proposal; a progress timeout or `changeLeader` raises it by at most one. */
  lemma OnlyTimeoutsRaiseProposals(net: Network, states: seq<System>, steps: seq<Step>, k: nat, before: nat, after: nat)
    requires net.Valid() && IsRun(net, states, steps) && k < |steps| && steps[k].Handle?
    requires IsMaxNewEpoch(states[k], before) && IsMaxNewEpoch(states[k + 1], after)
    ensures before <= after <= before + 1
    ensures before < after ==> steps[k].input.ProgressTimeout? || steps[k].input.ChangeLeader?
  {
    var s, t := states[k], states[k + 1];
    assert Next(net, s, t, steps[k]);
    var top := RunKeepsInv(net, states, steps, k);
    var p, input := steps[k].oracle, steps[k].input;
    var r := React(ConfigOf(net, p), s.nodes[p], input);
    ReactSound(net, s, p, input);
    RaisedByAtMostOne(net, s, p, input, before);
    MaxAfterReaction(net, s, p, r, before, after);
  }

  lemma MaxAfterReaction(net: Network, s: System, p: PeerId, r: Reaction, before: nat, after: nat)
    requires net.Valid() && p in s.nodes && Sound(net, s, p, r)
    requires IsMaxNewEpoch(s, before) && IsMaxNewEpoch(Applied(s, p, r), after)
    ensures before <= after && (after == before || after == r.state.newEpoch)
  {
    var t := Applied(s, p, r);
    var b :| b in s.nodes && s.nodes[b].newEpoch == before;
    assert t.nodes[b].newEpoch >= before;
    var a :| a in t.nodes && t.nodes[a].newEpoch == after;
    if a != p {
      assert s.nodes[a].newEpoch == after;
    }
  }

  lemma RaisedByAtMostOne(net: Network, s: System, p: PeerId, input: Input, before: nat)
    requires net.Valid() && NodesInv(net, s) && SentInv(s) && p in s.nodes && Authentic(net, s, input)
    requires forall q :: q in s.nodes ==> s.nodes[q].newEpoch <= before
    ensures
      var newEpoch := React(ConfigOf(net, p), s.nodes[p], input).state.newEpoch;
      newEpoch <= before || (newEpoch == before + 1 && (input.ProgressTimeout? || input.ChangeLeader?))
  {
    if input.NewEpoch? {
      ReceiveProposesNothingNew(net, s, p, input);
      var q :| q in Proposers(s, React(ConfigOf(net, p), s.nodes[p], input).state.newEpoch);
    }
  }

  /** A correct oracle enters an epoch only when at least f + 1 correct oracles already propose it, and
      never skips past the highest epoch by more than one. */
  lemma EnteringNeedsCorrectQuorum(net: Network, states: seq<System>, steps: seq<Step>, k: nat, p: PeerId,
                                   before: nat, after: nat, highest: nat)
    requires net.Valid() && IsRun(net, states, steps) && k < |steps| && p in states[k].nodes
    requires InEpoch(states[k], p, before) && InEpoch(states[k + 1], p, after) && IsMaxEpoch(states[k], highest)
    ensures before <= after <= highest + 1
    ensures before < after ==> |Proposers(states[k], after)| >= FaultBound(net.ledger) + 1
    ensures Proposers(states[k], after) <= net.Correct()
  {
    var s, t := states[k], states[k + 1];
    assert Next(net, s, t, steps[k]);
    var top := RunKeepsInv(net, states, steps, k);
    TopIsMaxEpoch(net, s, top, highest);
    EnteredInStep(net, s, t, steps[k], p, before, after, top);
  }

  lemma EnteredInStep(net: Network, s: System, t: System, step: Step, p: PeerId, before: nat, after: nat, top: nat)
    requires net.Valid() && Inv(net, s, top) && Next(net, s, t, step) && p in s.nodes
    requires InEpoch(s, p, before) && InEpoch(t, p, after)
    ensures before <= after <= top + 1
    ensures before < after ==> |Proposers(s, after)| >= FaultBound(net.ledger) + 1
    ensures Proposers(s, after) <= net.Correct()
  {
    forall q | q in Proposers(s, after) ensures q in net.Correct() {
      assert NodeOk(net, s, q);
    }
    if step.Handle? && step.oracle == p {
      EnteredEpoch(net, s, p, step.input, top);
    }
  }

  lemma EnteredEpoch(net: Network, s: System, p: PeerId, input: Input, top: nat)
    requires net.Valid() && Inv(net, s, top) && p in s.nodes && Authentic(net, s, input)
    ensures
      var before, after := s.nodes[p].current, React(ConfigOf(net, p), s.nodes[p], input).state.current;
      && before.Some? && after.Some? && before.value.epoch <= after.value.epoch <= top + 1
      && (before.value.epoch < after.value.epoch ==>
          |Proposers(s, after.value.epoch)| >= FaultBound(net.ledger) + 1)
  {
    ReactSound(net, s, p, input);
    EnterNeedsProposers(net, s, p, input);
    var r := React(ConfigOf(net, p), s.nodes[p], input);
    WithinTop(net, s, p, r, top);
  }

  lemma WithinTop(net: Network, s: System, p: PeerId, r: Reaction, top: nat)
    requires net.Valid() && SkewInv(s, top) && p in s.nodes && Sound(net, s, p, r)
    requires
      r.state.current == s.nodes[p].current ||
      |Proposers(s, r.state.current.value.epoch)| >= FaultBound(net.ledger) + 1
    ensures r.state.current.value.epoch <= top + 1
  {
    if r.state.current != s.nodes[p].current {
      CorrectMajority(net.ledger, net.faulty);
      assert Proposers(s, r.state.current.value.epoch) != {};
      var q :| q in Proposers(s, r.state.current.value.epoch);
    }
  }
}
