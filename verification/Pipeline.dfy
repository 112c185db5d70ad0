/**
 * From the ECSNode reconciler through the lossy queues to the subscribers' copies and the ConfigMap.
 *
 * The host maps live in a heap and the messages are locations in it, as they are references in the program. Location
 * 0 is the publisher's live map. The host-map type, its text form and the reconciler are parameters here; the module
 * Propagation puts in the real ones.
 */
module Pipeline {
  import opened Base
  import PubSub

  /** What a subscriber's queue holds, and what a trigger channel holds. */
  const CAPACITY: nat := PubSub.CAPACITY
  const TRIGGERS: nat := 10

  datatype Owner<H> = Owner(hosts: H, done: bool)

  datatype System<!H, !T> = System(
    empty: H,
    moves: (Owner<H>, Owner<H>, bool) -> bool,   // what one reconcile may do, and whether it sends a trigger
    fit: H -> bool,                              // host maps that the text form can carry
    parse: T -> H,
    renders: (T, H) -> bool)                     // the texts that writing a host map may give

  /** What the program's parts promise to each other. */
  ghost predicate Sound<H(!new), T(!new)>(sys: System<H, T>) {
    && sys.fit(sys.empty)
    && (forall o, o', publish :: sys.moves(o, o', publish) && sys.fit(o.hosts) ==> sys.fit(o'.hosts))
    && (forall o, o', publish :: sys.moves(o, o', publish) && o'.hosts != o.hosts ==> publish)
    && (forall t, h :: sys.fit(h) && sys.renders(t, h) ==> sys.parse(t) == h)
  }

  /** A message aliases the live map, as in the program, or is a copy made when it is published. */
  datatype Mode = Aliased | Snapshot

  type Loc = nat

  datatype Sub<H> = Sub(data: H, queue: seq<Loc>)

  datatype Stored<T> = Stored(text: T, deleting: bool)

  datatype State<H, T> = State(
    heap: seq<H>,                   // location 0: the publisher's map
    done: bool,
    owed: nat,                      // reconciles about to send a trigger
    trigger: nat,                   // triggers waiting for the publisher's loop
    subs: seq<Sub<H>>,              // subscriber 0 writes the ConfigMap
    loopOwes: bool,                 // the ConfigMap loop is about to send itself a trigger, and does nothing else
    senders: nat,                   // ConfigMap reconciles and retry timers about to send a trigger
    syncTrigger: nat,               // triggers waiting for the ConfigMap loop
    cm: Option<Stored<T>>,          // the ConfigMap in the API server
    event: bool)                    // a change of the ConfigMap not yet reconciled

  datatype Action<H, T> =
    | Reconcile(after: Owner<H>, publish: bool)
    | SendTrigger
    | Publish
    | Receive(i: nat)
    | LoopSends
    | SenderSends
    | Sync(text: T, readable: bool, took: bool, answered: bool)
    | Drift(cm: Option<Stored<T>>)
    | Watch(reachable: bool)

  // ---------------------------------------------------------------- steps

  function Live<H, T>(s: State<H, T>): H
    requires s.heap != []
  {
    s.heap[0]
  }

  ghost predicate Shaped<H, T>(s: State<H, T>) {
    && s.heap != [] && s.subs != []
    && forall i, j | 0 <= i < |s.subs| && 0 <= j < |s.subs[i].queue| :: s.subs[i].queue[j] < |s.heap|
  }

  /** A full queue drops the message. */
  function Offer<H>(sub: Sub<H>, l: Loc): Sub<H> {
    if |sub.queue| < CAPACITY then sub.(queue := sub.queue + [l]) else sub
  }

  function OfferAll<H>(subs: seq<Sub<H>>, l: Loc): (r: seq<Sub<H>>)
    ensures |r| == |subs| && forall i | 0 <= i < |subs| :: r[i] == Offer(subs[i], l)
  {
    seq(|subs|, i requires 0 <= i < |subs| => Offer(subs[i], l))
  }

  // The subscribers as the hub of PubSub sees them, under their numbers: the messages carry locations.

  function Messages(topic: nat, queue: seq<Loc>): (q: PubSub.Queue<nat, Loc>)
    ensures |q| == |queue| && forall i | 0 <= i < |q| :: q[i] == PubSub.Message(topic, queue[i])
  {
    seq(|queue|, i requires 0 <= i < |queue| => PubSub.Message(topic, queue[i]))
  }

  function HubOf<H>(topic: nat, subs: seq<Sub<H>>): PubSub.Hub<nat, Loc> {
    map[topic := map i: nat | i < |subs| :: Messages(topic, subs[i].queue)]
  }

  lemma OfferIsPush<H>(topic: nat, sub: Sub<H>, l: Loc)
    ensures Messages(topic, Offer(sub, l).queue) == PubSub.Push(Messages(topic, sub.queue), PubSub.Message(topic, l))
  {
  }

  /** What publishing does to the queues here is what it does to the hub. */
  lemma PublishIsThePubSubs<H>(topic: nat, subs: seq<Sub<H>>, l: Loc)
    ensures HubOf(topic, OfferAll(subs, l)) == PubSub.Published(HubOf(topic, subs), topic, PubSub.Message(topic, l))
  {
    hide PubSub.Push, Offer;
    var here, there := HubOf(topic, OfferAll(subs, l)), PubSub.Published(HubOf(topic, subs), topic, PubSub.Message(topic, l));
    assert here[topic].Keys == there[topic].Keys;
    forall j: nat | j < |subs| ensures here[topic][j] == there[topic][j] {
      OfferIsPush(topic, subs[j], l);
    }
    assert here[topic] == there[topic];
  }

  /** And so is taking a message. */
  lemma ReceiveIsThePubSubs<H>(topic: nat, subs: seq<Sub<H>>, i: nat, data: H)
    requires i < |subs| && subs[i].queue != []
    ensures HubOf(topic, subs[i := Sub(data, subs[i].queue[1..])]) == PubSub.Received(HubOf(topic, subs), topic, i)
    ensures HubOf(topic, subs)[topic][i][0] == PubSub.Message(topic, subs[i].queue[0])
  {
    var here, there := HubOf(topic, subs[i := Sub(data, subs[i].queue[1..])]), PubSub.Received(HubOf(topic, subs), topic, i);
    assert Messages(topic, subs[i].queue[1..]) == Messages(topic, subs[i].queue)[1..];
    assert HubOf(topic, subs)[topic][i] == Messages(topic, subs[i].queue) != [];
    assert here[topic].Keys == there[topic].Keys;
    forall j: nat | j < |subs| ensures here[topic][j] == there[topic][j] {
    }
    assert here[topic] == there[topic];
  }

  ghost predicate Possible<H, T>(sys: System<H, T>, s: State<H, T>, a: Action<H, T>)
    requires Shaped(s)
  {
    match a
    case Reconcile(after, publish) => sys.moves(Owner(Live(s), s.done), after, publish)
    case SendTrigger => s.owed > 0 && s.trigger < TRIGGERS
    case Publish => s.trigger > 0
    case Receive(i) => i < |s.subs| && s.subs[i].queue != [] && (i == 0 ==> !s.loopOwes)
    case LoopSends => s.loopOwes && s.syncTrigger < TRIGGERS
    case SenderSends => s.senders > 0 && s.syncTrigger < TRIGGERS
    case Sync(text, readable, took, answered) => s.syncTrigger > 0 && !s.loopOwes && sys.renders(text, s.subs[0].data)
    case Drift(_) => true
    case Watch(_) => s.event
  }

  /** What CreateOrUpdate sends: nothing when the stored text already says the data. */
  ghost predicate Says<H, T>(sys: System<H, T>, s: State<H, T>) {
    s.subs != [] && s.cm.Some? && sys.parse(s.cm.value.text) == s.subs[0].data
  }

  ghost predicate SyncFails<H, T>(sys: System<H, T>, s: State<H, T>, a: Action<H, T>)
    requires a.Sync?
  {
    !a.readable || (!Says(sys, s) && !(a.took && a.answered))
  }

  ghost predicate NeedsSync<H, T>(sys: System<H, T>, s: State<H, T>, reachable: bool)
    requires Shaped(s)
  {
    s.subs[0].data != sys.empty && (!reachable || !Says(sys, s) || s.cm.value.deleting)
  }

  ghost function Next<H, T>(sys: System<H, T>, mode: Mode, s: State<H, T>, a: Action<H, T>): State<H, T>
    requires Shaped(s) && Possible(sys, s, a)
  {
    match a
    case Reconcile(after, publish) =>
      s.(heap := s.heap[0 := after.hosts], done := after.done, owed := s.owed + if publish then 1 else 0)
    case SendTrigger => s.(owed := s.owed - 1, trigger := s.trigger + 1)
    case Publish =>
      if mode == Aliased then s.(trigger := s.trigger - 1, subs := OfferAll(s.subs, 0))
      else s.(trigger := s.trigger - 1, heap := s.heap + [Live(s)], subs := OfferAll(s.subs, |s.heap|))
    case Receive(i) =>
      var sub := s.subs[i];
      var after := Sub(s.heap[sub.queue[0]], sub.queue[1..]);
      s.(subs := s.subs[i := after], loopOwes := s.loopOwes || (i == 0 && after.data != sub.data))
    case LoopSends => s.(loopOwes := false, syncTrigger := s.syncTrigger + 1)
    case SenderSends => s.(senders := s.senders - 1, syncTrigger := s.syncTrigger + 1)
    case Sync(text, readable, took, answered) =>
      var left := s.(syncTrigger := s.syncTrigger - 1, senders := s.senders + if SyncFails(sys, s, a) then 1 else 0);
      if readable && took && !Says(sys, s) then
        left.(cm := Some(Stored(text, s.cm.Some? && s.cm.value.deleting)), event := true)
      else left
    case Drift(cm) => s.(cm := cm, event := true)
    case Watch(reachable) => s.(event := false, senders := s.senders + if NeedsSync(sys, s, reachable) then 1 else 0)
  }

  // ---------------------------------------------------------------- runs

  ghost predicate Initial<H, T>(sys: System<H, T>, s: State<H, T>) {
    && s.heap == [sys.empty] && !s.done && s.owed == s.trigger == s.senders == s.syncTrigger == 0 && !s.loopOwes
    && s.subs != [] && forall i | 0 <= i < |s.subs| :: s.subs[i] == Sub(sys.empty, [])
  }

  ghost predicate Step<H, T>(sys: System<H, T>, mode: Mode, s: State<H, T>, a: Action<H, T>, s': State<H, T>) {
    Shaped(s) && Possible(sys, s, a) && s' == Next(sys, mode, s, a)
  }

  datatype Run<H, T> = Run(states: seq<State<H, T>>, actions: seq<Action<H, T>>)

  ghost predicate IsRun<H, T>(sys: System<H, T>, mode: Mode, r: Run<H, T>) {
    && |r.states| == |r.actions| + 1
    && Initial(sys, r.states[0])
    && forall n | 0 <= n < |r.actions| :: Step(sys, mode, r.states[n], r.actions[n], r.states[n + 1])
  }

  /** Nothing is under way: no trigger, queued message, watch event or retry is pending. */
  ghost predicate Quiescent<H, T>(s: State<H, T>) {
    && s.owed == s.trigger == s.senders == s.syncTrigger == 0 && !s.loopOwes && !s.event
    && forall i | 0 <= i < |s.subs| :: s.subs[i].queue == []
  }

  ghost predicate Agreement<H, T>(sys: System<H, T>, s: State<H, T>)
    requires s.heap != []
  {
    && (forall i | 0 <= i < |s.subs| :: s.subs[i].data == Live(s))
    && (Live(s) != sys.empty ==> s.cm.Some? && sys.parse(s.cm.value.text) == Live(s))
  }

  // ---------------------------------------------------------------- the invariant

  /** A copy that is behind has a message waiting, or one is still to come. */
  ghost predicate CopyPending<H, T>(s: State<H, T>, i: nat)
    requires Shaped(s) && i < |s.subs|
  {
    s.subs[i].data == Live(s) || s.subs[i].queue != [] || s.trigger > 0 || s.owed > 0
  }

  /** A ConfigMap that does not say the writer's copy will be looked at again. */
  ghost predicate TextPending<H, T>(sys: System<H, T>, s: State<H, T>)
    requires Shaped(s)
  {
    Says(sys, s) || s.subs[0].data == sys.empty || s.loopOwes || s.senders > 0 || s.syncTrigger > 0 || s.event
  }

  ghost predicate Inv<H, T>(sys: System<H, T>, s: State<H, T>) {
    && Shaped(s) && |s.heap| == 1 && sys.fit(Live(s))
    && (forall i | 0 <= i < |s.subs| :: sys.fit(s.subs[i].data))
    && (forall i | 0 <= i < |s.subs| :: CopyPending(s, i))
    && TextPending(sys, s)
  }

  lemma StepKeeps<H(!new), T(!new)>(sys: System<H, T>, s: State<H, T>, a: Action<H, T>, s': State<H, T>)
    requires Sound(sys) && Inv(sys, s) && Step(sys, Aliased, s, a, s')
    ensures Inv(sys, s')
  {
    assert sys.fit(Live(s'));
    assert Shaped(s');
    forall i | 0 <= i < |s'.subs| ensures sys.fit(s'.subs[i].data) && CopyPending(s', i) {
      assert CopyPending(s, i) && sys.fit(s.subs[i].data);
    }
  }

  lemma {:induction false} RunInv<H(!new), T(!new)>(sys: System<H, T>, r: Run<H, T>, n: nat)
    requires Sound(sys) && IsRun(sys, Aliased, r) && n < |r.states|
    ensures Inv(sys, r.states[n])
  {
    if n > 0 {
      RunInv(sys, r, n - 1);
      hide Inv, Step, Sound;
      StepKeeps(sys, r.states[n - 1], r.actions[n - 1], r.states[n]);
    }
  }

  /**
   * However many messages were dropped and whatever failed in between: when nothing is pending every subscriber has
   * the live map, and the ConfigMap says it unless it is empty.
   */
  lemma AgreementAtQuiescence<H(!new), T(!new)>(sys: System<H, T>, r: Run<H, T>, n: nat)
    requires Sound(sys) && IsRun(sys, Aliased, r) && n < |r.states| && Quiescent(r.states[n])
    ensures Shaped(r.states[n]) && Agreement(sys, r.states[n])
  {
    RunInv(sys, r, n);
    var s := r.states[n];
    forall i | 0 <= i < |s.subs| ensures s.subs[i].data == Live(s) {
      assert CopyPending(s, i);
    }
  }

  // ---------------------------------------------------------------- why the hypotheses are there

  ghost function Last<H, T>(r: Run<H, T>): State<H, T>
    requires r.states != []
  {
    r.states[|r.states| - 1]
  }

  lemma Extend<H, T>(sys: System<H, T>, mode: Mode, r: Run<H, T>, a: Action<H, T>) returns (r': Run<H, T>)
    requires IsRun(sys, mode, r) && Shaped(Last(r)) && Possible(sys, Last(r), a)
    ensures r'.states != [] && IsRun(sys, mode, r') && Last(r') == Next(sys, mode, Last(r), a)
  {
    hide Initial, Next, Possible, Shaped;
    assert Step(sys, mode, Last(r), a, Next(sys, mode, Last(r), a));
    r' := Run(r.states + [Next(sys, mode, Last(r), a)], r.actions + [a]);
  }

  /** An empty map is never enforced: from any quiescent state with one, the ConfigMap can be made anything and stays so. */
  lemma EmptyMapIsNotEnforced<H(!new), T(!new)>(sys: System<H, T>, r: Run<H, T>, cm: Option<Stored<T>>) returns (r': Run<H, T>)
    requires Sound(sys) && IsRun(sys, Aliased, r) && Quiescent(Last(r)) && Last(r).heap != [] && Live(Last(r)) == sys.empty
    ensures IsRun(sys, Aliased, r') && Quiescent(Last(r')) && Last(r').heap == Last(r).heap && Last(r').cm == cm
  {
    RunInv(sys, r, |r.states| - 1);
    AgreementAtQuiescence(sys, r, |r.states| - 1);
    r' := Extend(sys, Aliased, r, Drift(cm));
    r' := Extend(sys, Aliased, r', Watch(true));
  }

  // A run in which messages are copies. Eleven maps are published before any message is taken.

  const ROUNDS: nat := CAPACITY + 1

  ghost predicate Succession<H(!new), T(!new)>(sys: System<H, T>, owners: seq<Owner<H>>) {
    && Sound(sys)
    && (forall h :: sys.fit(h) ==> exists t :: sys.renders(t, h))
    && |owners| == ROUNDS + 1 && owners[0] == Owner(sys.empty, false)
    && forall n | 0 <= n < ROUNDS :: sys.moves(owners[n], owners[n + 1], true)
  }

  function Waiting(from: nat, to: nat): (q: seq<Loc>)
    requires from <= to
    ensures |q| == to - from && forall i | 0 <= i < |q| :: q[i] == from + i
  {
    seq(to - from, i => from + i)
  }

  /** The heap after n rounds: the live map, and the copies sent so far. */
  function Copies<H>(owners: seq<Owner<H>>, n: nat): (heap: seq<H>)
    requires n < |owners|
    ensures |heap| == n + 1 && heap[0] == owners[n].hosts && forall i | 0 < i <= n :: heap[i] == owners[i].hosts
  {
    seq(n + 1, i requires 0 <= i <= n => if i == 0 then owners[n].hosts else owners[i].hosts)
  }

  function Idle<H, T>(heap: seq<H>, done: bool, sub: Sub<H>, cm: Option<Stored<T>>): State<H, T> {
    State(heap, done, 0, 0, [sub], false, 0, 0, cm, false)
  }

  function AfterRounds<H, T>(sys: System<H, T>, owners: seq<Owner<H>>, n: nat): State<H, T>
    requires n < |owners|
  {
    var sent := if n < CAPACITY then n else CAPACITY;
    Idle(Copies(owners, n), owners[n].done, Sub(sys.empty, Waiting(1, sent + 1)), None)
  }

  lemma RoundState<H, T>(sys: System<H, T>, owners: seq<Owner<H>>, n: nat)
    requires n + 1 < |owners|
    ensures Copies(owners, n)[0 := owners[n + 1].hosts] + [owners[n + 1].hosts] == Copies(owners, n + 1)
    ensures n < CAPACITY ==> Waiting(1, n + 1) + [n + 1] == Waiting(1, n + 2)
  {
  }

  lemma {:induction false} Rounds<H(!new), T(!new)>(sys: System<H, T>, owners: seq<Owner<H>>, n: nat) returns (r: Run<H, T>)
    requires Succession(sys, owners) && n <= ROUNDS
    ensures IsRun(sys, Snapshot, r) && Last(r) == AfterRounds(sys, owners, n)
  {
    if n == 0 {
      var s := AfterRounds(sys, owners, 0);
      assert s.heap == [sys.empty] && s.subs == [Sub(sys.empty, [])];
      r := Run([s], []);
    } else {
      r := Rounds(sys, owners, n - 1);
      hide Sound, IsRun;
      RoundState(sys, owners, n - 1);
      r := Extend(sys, Snapshot, r, Reconcile(owners[n], true));
      r := Extend(sys, Snapshot, r, SendTrigger);
      r := Extend(sys, Snapshot, r, Publish);
      assert Last(r).subs == AfterRounds(sys, owners, n).subs;
    }
  }

  lemma {:induction false} AllFit<H(!new), T(!new)>(sys: System<H, T>, owners: seq<Owner<H>>, n: nat)
    requires Succession(sys, owners) && n <= ROUNDS
    ensures sys.fit(owners[n].hosts)
  {
    if n > 0 {
      AllFit(sys, owners, n - 1);
      assert sys.moves(owners[n - 1], owners[n], true);
    }
  }

  ghost predicate Drained<H, T>(owners: seq<Owner<H>>, k: nat, s: State<H, T>)
    requires |owners| == ROUNDS + 1 && k <= CAPACITY
  {
    && s == Idle(Copies(owners, ROUNDS), owners[ROUNDS].done, Sub(owners[k].hosts, Waiting(k + 1, ROUNDS)), s.cm)
    && (s.cm.Some? ==> !s.cm.value.deleting)
  }

  /** Once the loop owes itself a trigger, it can send it, write the ConfigMap and find nothing more to do. */
  lemma Settle<H(!new), T(!new)>(sys: System<H, T>, r: Run<H, T>, heap: seq<H>, done: bool, sub: Sub<H>, text: T)
      returns (r': Run<H, T>)
    requires Sound(sys) && sys.fit(sub.data) && sys.renders(text, sub.data)
    requires IsRun(sys, Snapshot, r) && Shaped(Last(r)) && Last(r) == Idle(heap, done, sub, Last(r).cm).(loopOwes := true)
    requires Last(r).cm.Some? ==> !Last(r).cm.value.deleting
    ensures IsRun(sys, Snapshot, r') && Last(r') == Idle(heap, done, sub, Last(r').cm)
    ensures Last(r').cm.Some? ==> !Last(r').cm.value.deleting
  {
    hide IsRun;
    r' := Extend(sys, Snapshot, r, LoopSends);
    r' := Extend(sys, Snapshot, r', Sync(text, true, true, true));
    if Last(r').event {
      r' := Extend(sys, Snapshot, r', Watch(true));
    }
  }

  lemma DrainOne<H(!new), T(!new)>(sys: System<H, T>, owners: seq<Owner<H>>, k: nat, r: Run<H, T>) returns (r': Run<H, T>)
    requires Succession(sys, owners) && k < CAPACITY && IsRun(sys, Snapshot, r) && Drained(owners, k, Last(r))
    ensures IsRun(sys, Snapshot, r') && Drained(owners, k + 1, Last(r'))
  {
    AllFit(sys, owners, k + 1);
    var text :| sys.renders(text, owners[k + 1].hosts);
    hide IsRun;
    assert Waiting(k + 1, ROUNDS)[1..] == Waiting(k + 2, ROUNDS);
    r' := Extend(sys, Snapshot, r, Receive(0));
    var sub := Sub(owners[k + 1].hosts, Waiting(k + 2, ROUNDS));
    assert Last(r').subs == [sub];
    if Last(r').loopOwes {
      r' := Settle(sys, r', Copies(owners, ROUNDS), owners[ROUNDS].done, sub, text);
    }
  }

  lemma {:induction false} Drain<H(!new), T(!new)>(sys: System<H, T>, owners: seq<Owner<H>>, k: nat) returns (r: Run<H, T>)
    requires Succession(sys, owners) && k <= CAPACITY
    ensures IsRun(sys, Snapshot, r) && Drained(owners, k, Last(r))
  {
    if k == 0 {
      r := Rounds(sys, owners, ROUNDS);
    } else {
      r := Drain(sys, owners, k - 1);
      r := DrainOne(sys, owners, k - 1, r);
    }
  }

  /**
   * With copies instead of references the agreement is false: if the map can take eleven values in turn, a run that
   * publishes all of them before any is taken loses the last, and ends with nothing pending and the subscriber behind.
   */
  lemma SnapshotsLoseTheLast<H(!new), T(!new)>(sys: System<H, T>, owners: seq<Owner<H>>) returns (r: Run<H, T>)
    requires Succession(sys, owners) && owners[ROUNDS].hosts != owners[CAPACITY].hosts
    ensures IsRun(sys, Snapshot, r) && Quiescent(Last(r)) && Shaped(Last(r)) && !Agreement(sys, Last(r))
  {
    r := Drain(sys, owners, CAPACITY);
    hide IsRun, Succession;
    assert Last(r).subs[0].data == owners[CAPACITY].hosts;
  }
}
