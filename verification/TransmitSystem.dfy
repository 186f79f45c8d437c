/** Every interleaving of the transmit service's handlers, cut where the source awaits: deciding after
    the chain call, queueing after the delay is known, popping when the timer fires, and re-arming after
    the chain calls of a popped report returned or threw. */
module TransmitSystem {
  import opened Options
  import opened Ledger
  import opened Reports
  import opened Median
  import opened Transmit

  /** A popped entry and when it was popped. */
  datatype Popped = Popped(entry: Queued, at: int)

  /** `accepted` and `popped` are histories. `awaiting` are accepted reports whose delay is still being
      computed, `inFlight` popped ones whose handler has not finished. `timer` is the one pending deadline. */
  datatype State = State(
    now: int,
    cache: Cache,
    accepted: seq<Item>,
    awaiting: seq<Item>,
    queue: seq<Queued>,
    timer: Option<int>,
    inFlight: seq<Queued>,
    popped: seq<Popped>)

  datatype Step =
    | Tick(later: int)
    | Decide(item: Item, alpha: real, chain: Option<ChainPoint>)
    | Push(waiting: nat, delay: int)
    | Fire(earliest: nat)
    | Finish(handler: nat)
    | Throw(handler: nat)

  ghost predicate Init(s: State) {
    s == State(s.now, map[], [], [], [], None, [], [])
  }

  ghost function Decided(s: State, item: Item): State {
    s.(cache := s.cache[item.aggregator := item.report],
       accepted := s.accepted + [item],
       awaiting := s.awaiting + [item])
  }

  ghost function Pushed(s: State, i: nat, delay: int): State
    requires i < |s.awaiting|
  {
    s.(awaiting := RemoveAt(s.awaiting, i), queue := s.queue + [Queued(s.now + delay, s.awaiting[i])])
  }

  ghost function Rearmed(s: State): State {
    if s.queue == [] then s else s.(timer := Some(EarliestTime(s.queue)))
  }

  ghost predicate Next(s: State, t: State, step: Step) {
    match step
    case Tick(later) => s.now <= later && t == s.(now := later)
    case Decide(item, alpha, chain) =>
      t == if Accepts(s.cache, item, alpha, chain) then Decided(s, item) else s
    case Push(i, delay) =>
      i < |s.awaiting| && t == Rearmed(Pushed(s, i, delay))
    case Fire(k) =>
      s.timer.Some? && s.timer.value <= s.now &&
      if s.queue == [] then t == s.(timer := None)
      else IsEarliest(s.queue, k) &&
           t == s.(timer := None, queue := RemoveAt(s.queue, k), inFlight := s.inFlight + [s.queue[k]],
                   popped := s.popped + [Popped(s.queue[k], s.now)])
    case Finish(h) => h < |s.inFlight| && t == Rearmed(s.(inFlight := RemoveAt(s.inFlight, h)))
    case Throw(h) => h < |s.inFlight| && t == s.(inFlight := RemoveAt(s.inFlight, h))
  }

  ghost predicate IsRun(states: seq<State>, steps: seq<Step>) {
    && |states| == |steps| + 1
    && Init(states[0])
    && forall i :: 0 <= i < |steps| ==> Next(states[i], states[i + 1], steps[i])
  }

  // ----- The timer and the queue -----

  /** An armed timer is armed for the earliest queued report. */
  ghost predicate TimerInv(s: State) {
    s.timer.Some? ==> s.queue != [] && s.timer.value == EarliestTime(s.queue)
  }

  /** Reports are queued, but neither the timer nor any unfinished handler will send them. */
  ghost predicate Stalled(s: State) {
    s.queue != [] && s.timer == None && s.inFlight == []
  }

  lemma NextKeepsTimer(s: State, t: State, step: Step)
    requires TimerInv(s) && Next(s, t, step)
    ensures TimerInv(t)
  {
  }

  /** The queue stalls exactly when a handler throws while it is the only unfinished one, the timer is
      not armed and reports are queued; only queueing a report ends a stall. */
  lemma StallExactly(s: State, t: State, step: Step)
    requires TimerInv(s) && Next(s, t, step)
    ensures
      Stalled(t) <==>
      (Stalled(s) && !step.Push?) ||
      (step.Throw? && |s.inFlight| == 1 && s.timer == None && s.queue != [])
  {
  }

  lemma {:induction false} RunKeepsTimer(states: seq<State>, steps: seq<Step>, k: nat)
    requires IsRun(states, steps) && k < |states|
    ensures TimerInv(states[k])
  {
    if k > 0 {
      RunKeepsTimer(states, steps, k - 1);
      NextKeepsTimer(states[k - 1], states[k], steps[k - 1]);
    }
  }

  /** While no handler throws, in every interleaving a non-empty queue has the timer armed for its
      earliest report or a handler in flight that will re-arm it. */
  lemma {:induction false} QueueIsServed(states: seq<State>, steps: seq<Step>, k: nat)
    requires IsRun(states, steps) && k < |states|
    requires forall i :: 0 <= i < k ==> !steps[i].Throw?
    ensures states[k].queue != [] ==>
      states[k].timer == Some(EarliestTime(states[k].queue)) || (states[k].timer == None && states[k].inFlight != [])
  {
    RunKeepsTimer(states, steps, k);
    if k > 0 {
      QueueIsServed(states, steps, k - 1);
      RunKeepsTimer(states, steps, k - 1);
      StallExactly(states[k - 1], states[k], steps[k - 1]);
    }
  }

  /** Two accepted reports, both queued for time 0, the timer armed. */
  ghost function BothQueued(a: Item, b: Item): State {
    State(0, map[a.aggregator := a.report, b.aggregator := b.report], [a, b], [],
          [Queued(0, a), Queued(0, b)], Some(0), [], [])
  }

  lemma ReachBothQueued(a: Item, b: Item) returns (states: seq<State>, steps: seq<Step>)
    requires a.aggregator != b.aggregator
    ensures IsRun(states, steps) && |steps| == 4 && states[4] == BothQueued(a, b)
    ensures forall i :: 0 <= i < 4 ==> !steps[i].Throw?
  {
    var s0 := State(0, map[], [], [], [], None, [], []);
    var s1 := State(0, map[a.aggregator := a.report], [a], [a], [], None, [], []);
    var cache := map[a.aggregator := a.report, b.aggregator := b.report];
    var s2 := State(0, cache, [a, b], [a, b], [], None, [], []);
    var s3 := State(0, cache, [a, b], [b], [Queued(0, a)], Some(0), [], []);
    assert Next(s0, s1, Decide(a, 0.0, None));
    assert Next(s1, s2, Decide(b, 0.0, None));
    assert RemoveAt([a, b], 0) == [b] && RemoveAt([b], 0) == [];
    assert Next(s2, s3, Push(0, 0));
    assert Next(s3, BothQueued(a, b), Push(0, 0));
    steps := [Decide(a, 0.0, None), Decide(b, 0.0, None), Push(0, 0), Push(0, 0)];
    states := [s0, s1, s2, s3, BothQueued(a, b)];
  }

  lemma ExtendRun(states: seq<State>, steps: seq<Step>, t: State, step: Step)
    requires IsRun(states, steps) && Next(states[|steps|], t, step)
    ensures IsRun(states + [t], steps + [step])
  {
  }

  /** A run that stalls: two reports are queued, the first is popped and its handler throws. The second
      is left without a wake-up. */
  lemma ThrowWitness(a: Item, b: Item) returns (states: seq<State>, steps: seq<Step>)
    requires a.aggregator != b.aggregator
    ensures IsRun(states, steps) && |steps| == 6 && steps[5].Throw?
    ensures forall i :: 0 <= i < 5 ==> !steps[i].Throw?
    ensures Stalled(states[6]) && states[6].queue == [Queued(0, b)]
  {
    states, steps := ReachBothQueued(a, b);
    var first, second := Queued(0, a), Queued(0, b);
    assert RemoveAt([first, second], 0) == [second] && RemoveAt([first], 0) == [];
    var fired := BothQueued(a, b).(
      timer := None, queue := [second], inFlight := [first], popped := [Popped(first, 0)]);
    ExtendRun(states, steps, fired, Fire(0));
    states, steps := states + [fired], steps + [Fire(0)];
    var thrown := fired.(inFlight := []);
    ExtendRun(states, steps, thrown, Throw(0));
    states, steps := states + [thrown], steps + [Throw(0)];
  }

  // ----- Conservation -----

  function Items(queue: seq<Queued>): (items: seq<Item>)
    ensures |items| == |queue| && forall i :: 0 <= i < |items| ==> items[i] == queue[i].item
  {
    seq(|queue|, i requires 0 <= i < |queue| => queue[i].item)
  }

  function PoppedItems(popped: seq<Popped>): (items: seq<Item>)
    ensures |items| == |popped| && forall i :: 0 <= i < |items| ==> items[i] == popped[i].entry.item
  {
    seq(|popped|, i requires 0 <= i < |popped| => popped[i].entry.item)
  }

  /** Of every report: as many acceptances as there are occurrences waiting, queued and popped. */
  ghost predicate Conserved(s: State) {
    forall x: Item :: multiset(s.accepted)[x] == Occurrences(s, x)
  }

  ghost function Occurrences(s: State, x: Item): nat {
    multiset(s.awaiting)[x] + multiset(Items(s.queue))[x] + multiset(PoppedItems(s.popped))[x]
  }

  function Once(x: Item, y: Item): nat {
    if x == y then 1 else 0
  }

  lemma AppendOccurrence(s: seq<Item>, x: Item, y: Item)
    ensures multiset(s + [x])[y] == multiset(s)[y] + Once(x, y)
  {
  }

  lemma RemoveOccurrence(s: seq<Item>, k: nat, y: Item)
    requires k < |s|
    ensures multiset(s)[y] == multiset(RemoveAt(s, k))[y] + Once(s[k], y)
  {
    RemoveAtMultiset(s, k);
  }

  lemma QueueOccurrences(queue: seq<Queued>, k: nat, y: Item)
    requires k < |queue|
    ensures multiset(Items(queue))[y] == multiset(Items(RemoveAt(queue, k)))[y] + Once(queue[k].item, y)
  {
    assert Items(RemoveAt(queue, k)) == RemoveAt(Items(queue), k);
    RemoveOccurrence(Items(queue), k, y);
  }

  lemma PushOccurrences(s: State, i: nat, delay: int, y: Item)
    requires i < |s.awaiting|
    ensures Occurrences(Pushed(s, i, delay), y) == Occurrences(s, y)
  {
    var entry := Queued(s.now + delay, s.awaiting[i]);
    RemoveOccurrence(s.awaiting, i, y);
    AppendOccurrence(Items(s.queue), entry.item, y);
    assert Items(s.queue + [entry]) == Items(s.queue) + [entry.item];
  }

  lemma PopOccurrences(s: State, k: nat, y: Item)
    requires k < |s.queue|
    ensures
      Occurrences(s.(queue := RemoveAt(s.queue, k), popped := s.popped + [Popped(s.queue[k], s.now)]), y)
      == Occurrences(s, y)
  {
    QueueOccurrences(s.queue, k, y);
    AppendOccurrence(PoppedItems(s.popped), s.queue[k].item, y);
    assert PoppedItems(s.popped + [Popped(s.queue[k], s.now)]) == PoppedItems(s.popped) + [s.queue[k].item];
  }

  lemma RearmedSame(s: State, x: Item)
    ensures Occurrences(Rearmed(s), x) == Occurrences(s, x) && Rearmed(s).accepted == s.accepted
  {
  }

  lemma DecideOccurrences(s: State, item: Item, x: Item)
    ensures multiset(Decided(s, item).accepted)[x] == multiset(s.accepted)[x] + Once(item, x)
    ensures Occurrences(Decided(s, item), x) == Occurrences(s, x) + Once(item, x)
  {
    AppendOccurrence(s.accepted, item, x);
    AppendOccurrence(s.awaiting, item, x);
  }

  lemma PushConserves(s: State, t: State, i: nat, delay: int, x: Item)
    requires multiset(s.accepted)[x] == Occurrences(s, x) && Next(s, t, Push(i, delay))
    ensures multiset(t.accepted)[x] == Occurrences(t, x)
  {
    PushOccurrences(s, i, delay, x);
    RearmedSame(Pushed(s, i, delay), x);
  }

  lemma FireConserves(s: State, t: State, k: nat, x: Item)
    requires multiset(s.accepted)[x] == Occurrences(s, x) && Next(s, t, Fire(k))
    ensures multiset(t.accepted)[x] == Occurrences(t, x)
  {
    if s.queue != [] {
      PopOccurrences(s, k, x);
    }
  }

  lemma OtherConserves(s: State, t: State, step: Step, x: Item)
    requires multiset(s.accepted)[x] == Occurrences(s, x) && Next(s, t, step)
    requires step.Tick? || step.Finish? || step.Throw?
    ensures multiset(t.accepted)[x] == Occurrences(t, x)
  {
  }

  lemma NextConservesItem(s: State, t: State, step: Step, x: Item)
    requires multiset(s.accepted)[x] == Occurrences(s, x) && Next(s, t, step)
    ensures multiset(t.accepted)[x] == Occurrences(t, x)
  {
    match step
    case Decide(item, _, _) => DecideOccurrences(s, item, x);
    case Push(i, delay) => PushConserves(s, t, i, delay, x);
    case Fire(k) => FireConserves(s, t, k, x);
    case _ => OtherConserves(s, t, step, x);
  }

  lemma NextConserves(s: State, t: State, step: Step)
    requires Conserved(s) && Next(s, t, step)
    ensures Conserved(t)
  {
    forall x: Item ensures multiset(t.accepted)[x] == Occurrences(t, x) {
      NextConservesItem(s, t, step, x);
    }
  }

  // ----- Freshness over whole runs -----

  /** Accepted reports of one aggregator are strictly later one after the other, the cache holds the last. */
  ghost predicate FreshInv(s: State) {
    && (forall i, j :: 0 <= i < j < |s.accepted| && s.accepted[i].aggregator == s.accepted[j].aggregator ==>
          Later(s.accepted[i].report, s.accepted[j].report))
    && (forall i :: 0 <= i < |s.accepted| ==> UpToCache(s.cache, s.accepted[i]))
  }

  ghost predicate UpToCache(cache: Cache, item: Item) {
    item.aggregator in cache &&
    (cache[item.aggregator] == item.report || Later(item.report, cache[item.aggregator]))
  }

  lemma NextKeepsFresh(s: State, t: State, step: Step)
    requires FreshInv(s) && Next(s, t, step)
    ensures FreshInv(t)
  {
    if step.Decide? && t != s {
      AcceptedIsFresh(s.cache, step.item, step.alpha, step.chain);
      forall i | 0 <= i < |t.accepted| ensures UpToCache(t.cache, t.accepted[i]) {
        if i < |s.accepted| {
          assert UpToCache(s.cache, s.accepted[i]);
        }
      }
      forall i | 0 <= i < |s.accepted| && s.accepted[i].aggregator == step.item.aggregator
        ensures Later(s.accepted[i].report, step.item.report)
      {
        assert UpToCache(s.cache, s.accepted[i]);
      }
    }
  }

  // ----- Due times -----

  /** The entry was queued by step `m`: for the time of that step plus the delay computed for it. */
  ghost predicate PushedAt(states: seq<State>, steps: seq<Step>, m: nat, entry: Queued)
    requires |states| == |steps| + 1
  {
    && m < |steps| && steps[m].Push? && steps[m].waiting < |states[m].awaiting|
    && entry.item == states[m].awaiting[steps[m].waiting]
    && entry.time == states[m].now + steps[m].delay
  }

  /** The entry was popped by step `n`, at the time of that step. */
  ghost predicate PoppedAt(states: seq<State>, steps: seq<Step>, n: nat, p: Popped)
    requires |states| == |steps| + 1
  {
    n < |steps| && steps[n].Fire? && p.entry in states[n].queue && p.at == states[n].now
  }

  lemma NextQueue(s: State, t: State, step: Step, entry: Queued)
    requires Next(s, t, step) && entry in t.queue && entry !in s.queue
    ensures step.Push? && step.waiting < |s.awaiting|
    ensures entry == Queued(s.now + step.delay, s.awaiting[step.waiting])
  {
  }

  lemma NextPopped(s: State, t: State, step: Step, p: Popped)
    requires TimerInv(s) && Next(s, t, step) && p in t.popped && p !in s.popped
    ensures step.Fire? && p.entry in s.queue && p.at == s.now && p.entry.time <= s.now
  {
    var k :| 0 <= k < |s.queue| && s.queue[k].time == EarliestTime(s.queue);
  }

  /** Every queued entry was queued by an earlier push, for the time of that push plus its delay. */
  lemma {:induction false} QueuedWasPushed(states: seq<State>, steps: seq<Step>, k: nat, entry: Queued) returns (m: nat)
    requires IsRun(states, steps) && k < |states| && entry in states[k].queue
    ensures m < k && PushedAt(states, steps, m, entry)
  {
    assert k > 0;
    if entry in states[k - 1].queue {
      m := QueuedWasPushed(states, steps, k - 1, entry);
    } else {
      assert Next(states[k - 1], states[k], steps[k - 1]);
      NextQueue(states[k - 1], states[k], steps[k - 1], entry);
      m := k - 1;
    }
  }

  /** Every popped entry was queued by an earlier push, and was popped no earlier than the time of that
      push plus the delay computed for it. */
  lemma {:induction false} PoppedAfterItsDelay(states: seq<State>, steps: seq<Step>, k: nat, p: Popped) returns (m: nat, n: nat)
    requires IsRun(states, steps) && k < |states| && p in states[k].popped
    ensures m < n < k && PushedAt(states, steps, m, p.entry) && PoppedAt(states, steps, n, p)
    ensures states[n].now >= states[m].now + steps[m].delay
  {
    assert k > 0;
    if p in states[k - 1].popped {
      m, n := PoppedAfterItsDelay(states, steps, k - 1, p);
    } else {
      assert Next(states[k - 1], states[k], steps[k - 1]);
      RunKeepsTimer(states, steps, k - 1);
      NextPopped(states[k - 1], states[k], steps[k - 1], p);
      n := k - 1;
      m := QueuedWasPushed(states, steps, n, p.entry);
    }
  }

  lemma {:induction false} RunKeepsHistory(states: seq<State>, steps: seq<Step>, k: nat)
    requires IsRun(states, steps) && k < |states|
    ensures Conserved(states[k]) && FreshInv(states[k])
  {
    if k > 0 {
      RunKeepsHistory(states, steps, k - 1);
      NextConserves(states[k - 1], states[k], steps[k - 1]);
      NextKeepsFresh(states[k - 1], states[k], steps[k - 1]);
    }
  }

  // ----- Results -----

  /** The same report, or two of the same aggregator, epoch and round. */
  predicate SameKey(a: Item, b: Item) {
    a.aggregator == b.aggregator && a.report.epoch == b.report.epoch && a.report.round == b.report.round
  }

  lemma TwoOccurrences<T>(s: seq<T>, i: nat, j: nat)
    requires i < j < |s| && s[i] == s[j]
    ensures multiset(s)[s[i]] >= 2
  {
    assert s == s[..i] + [s[i]] + s[i + 1..j] + [s[j]] + s[j + 1..];
  }

  lemma {:induction false} OccurrencesApart<T>(s: seq<T>, x: T) returns (i: nat, j: nat)
    requires multiset(s)[x] >= 2
    ensures i < j < |s| && s[i] == s[j] == x
  {
    var last := |s| - 1;
    assert s == s[..last] + [s[last]];
    if s[last] == x {
      assert multiset(s[..last])[x] >= 1;
      assert x in s[..last];
      i :| 0 <= i < last && s[i] == x;
      j := last;
    } else {
      assert multiset(s)[x] == multiset(s[..last])[x];
      i, j := OccurrencesApart(s[..last], x);
    }
  }

  lemma PoppedWereAccepted(s: State, x: Item)
    requires Conserved(s)
    ensures multiset(PoppedItems(s.popped))[x] <= multiset(s.accepted)[x]
  {
  }

  lemma NoTwins(s: State, a: Item, b: Item)
    requires FreshInv(s) && a in s.accepted && b in s.accepted && SameKey(a, b)
    ensures a == b && multiset(s.accepted)[a] < 2
  {
    var i :| 0 <= i < |s.accepted| && s.accepted[i] == a;
    var j :| 0 <= j < |s.accepted| && s.accepted[j] == b;
    if multiset(s.accepted)[a] >= 2 {
      var k, l := OccurrencesApart(s.accepted, a);
    }
  }

  ghost predicate OnTime(states: seq<State>, steps: seq<Step>, p: Popped)
    requires |states| == |steps| + 1
  {
    exists m: nat, n: nat ::
      m < n && PushedAt(states, steps, m, p.entry) && PoppedAt(states, steps, n, p)
      && states[n].now >= states[m].now + steps[m].delay
  }

  /** In every run, whatever stale chain snapshots the decisions used and however pushes, timer fires
      and chain calls interleave: no two popped reports share aggregator, epoch and round, each was popped
      no earlier than the time it was queued at plus the delay computed for it, and every accepted report
      not yet popped is still waiting or queued. */
  lemma AtMostOnceAndOnTime(states: seq<State>, steps: seq<Step>, k: nat)
    requires IsRun(states, steps) && k < |states|
    ensures
      var s := states[k];
      && Conserved(s)
      && (forall p :: p in s.popped ==> OnTime(states, steps, p))
      && forall i, j :: 0 <= i < j < |s.popped| ==> !SameKey(s.popped[i].entry.item, s.popped[j].entry.item)
  {
    RunKeepsHistory(states, steps, k);
    var s := states[k];
    forall p | p in s.popped ensures OnTime(states, steps, p) {
      var m, n := PoppedAfterItsDelay(states, steps, k, p);
    }
    var items := PoppedItems(s.popped);
    forall i, j | 0 <= i < j < |s.popped| ensures !SameKey(items[i], items[j]) {
      PoppedTwinsImpossible(s, i, j);
    }
  }

  lemma PoppedTwinsImpossible(s: State, i: nat, j: nat)
    requires Conserved(s) && FreshInv(s) && i < j < |s.popped|
    ensures !SameKey(s.popped[i].entry.item, s.popped[j].entry.item)
  {
    var items := PoppedItems(s.popped);
    PoppedWereAccepted(s, items[i]);
    PoppedWereAccepted(s, items[j]);
    assert items[i] in multiset(items) && items[j] in multiset(items);
    assert items[i] in multiset(s.accepted) && items[j] in multiset(s.accepted);
    if SameKey(items[i], items[j]) {
      NoTwins(s, items[i], items[j]);
      TwoOccurrences(items, i, j);
    }
  }

  /** Accepted reports of an aggregator strictly increase in (epoch, round) over the whole run. */
  lemma AcceptedStrictlyIncrease(states: seq<State>, steps: seq<Step>, k: nat, i: nat, j: nat)
    requires IsRun(states, steps) && k < |states| && i < j < |states[k].accepted|
    requires states[k].accepted[i].aggregator == states[k].accepted[j].aggregator
    ensures Later(states[k].accepted[i].report, states[k].accepted[j].report)
  {
    RunKeepsHistory(states, steps, k);
  }
}
