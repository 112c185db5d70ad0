/** Bounded, lossy, non-blocking publish and subscribe. */
module PubSub {
  import opened Base

  const CAPACITY: nat := 10

  datatype Message<K(==), D> = Message(topic: K, data: D)

  type Queue<K(==), D> = seq<Message<K, D>>

  /** Topic -> subscriber ID -> the messages waiting in its channel. */
  type Hub<K(==), D> = map<K, map<K, Queue<K, D>>>

  // ---------------------------------------------------------------- the operations on values

  function Push<K(==), D>(q: Queue<K, D>, m: Message<K, D>): Queue<K, D> {
    if |q| < CAPACITY then q + [m] else q
  }

  function Subscribed<K(==), D>(h: Hub<K, D>, t: K, i: K): Hub<K, D> {
    if t in h && i in h[t] then h
    else h[t := (if t in h then h[t] else map[])[i := []]]
  }

  function Unsubscribed<K(==), D>(h: Hub<K, D>, t: K, i: K): Hub<K, D> {
    if t !in h then h
    else
      var rest := h[t] - {i};
      if rest == map[] then h - {t} else h[t := rest]
  }

  function Published<K(==), D>(h: Hub<K, D>, t: K, m: Message<K, D>): Hub<K, D> {
    if t in h then h[t := map i | i in h[t] :: Push(h[t][i], m)] else h
  }

  function Received<K(==), D>(h: Hub<K, D>, t: K, i: K): Hub<K, D> {
    if t in h && i in h[t] && h[t][i] != [] then h[t := h[t][i := h[t][i][1..]]] else h
  }

  // ---------------------------------------------------------------- the objects

  class Subscriber<K(==), D> {
    const id: K
    ghost const topic: K
    var message: Queue<K, D>
    var closed: bool

    constructor (id: K, ghost topic: K)
      ensures this.id == id && this.topic == topic && message == [] && !closed
    {
      this.id, this.topic := id, topic;
      message, closed := [], false;
    }

    /** The select with a default branch: a full channel drops the message. Sending on a closed channel would panic. */
    method Offer(m: Message<K, D>)
      requires !closed
      modifies this`message
      ensures message == Push(old(message), m)
      ensures message == if |old(message)| < 10 then old(message) + [m] else old(message)
    {
      if |message| < CAPACITY {
        message := message + [m];
      }
    }

    method Close()
      requires !closed
      modifies this`closed
      ensures closed
    {
      closed := true;
    }

    method Take() returns (m: Message<K, D>)
      requires message != []
      modifies this`message
      ensures [m] + message == old(message)
    {
      m := message[0];
      message := message[1..];
    }
  }

  type Topic<K(==), D> = map<K, Subscriber<K, D>>

  /** The subscribers of one topic: at least one, each in its own place with an open channel. */
  ghost predicate TopicOK<K, D>(t: K, subs: Topic<K, D>)
    reads subs.Values
  {
    && subs != map[]
    && forall i | i in subs :: subs[i].topic == t && subs[i].id == i && !subs[i].closed
  }

  ghost predicate TopicShows<K, D>(subs: Topic<K, D>, queues: map<K, Queue<K, D>>)
    reads subs.Values
  {
    queues.Keys == subs.Keys && forall i | i in subs :: queues[i] == subs[i].message
  }

  class PubSub<K(==), D> {
    var subscribers: map<K, Topic<K, D>>
    ghost var channels: set<Subscriber<K, D>>

    /** No topic is empty, every registered channel is open, and a channel is registered only in its own place. */
    ghost predicate Valid()
      reads this, channels
    {
      forall t | t in subscribers :: subscribers[t].Values <= channels && TopicOK(t, subscribers[t])
    }

    /** The hub is what `h` says: the same topics, subscribers and waiting messages. */
    ghost predicate Shows(h: Hub<K, D>)
      requires Valid()
      reads this, channels
    {
      h.Keys == subscribers.Keys && forall t | t in subscribers :: TopicShows(subscribers[t], h[t])
    }

    constructor ()
      ensures Valid() && Shows(map[]) && channels == {}
    {
      subscribers := map[];
      channels := {};
    }

    /** Fails exactly when the ID is already registered for the topic. */
    method Subscribe(t: K, i: K, ghost h: Hub<K, D>) returns (s: Subscriber?<K, D>)
      requires Valid() && Shows(h)
      modifies this
      ensures Valid() && Shows(Subscribed(h, t, i)) && fresh(channels - old(channels))
      ensures s == null <==> t in h && i in h[t]
      ensures s != null ==> fresh(s) && t in subscribers && i in subscribers[t] && subscribers[t][i] == s
    {
      var subs: Topic<K, D> := if t in subscribers then subscribers[t] else map[];
      ghost var queues := if t in h then h[t] else map[];
      assert (subs != map[] ==> TopicOK(t, subs)) && TopicShows(subs, queues);
      if i in subs {
        return null;
      }
      assert !(t in h && i in h[t]);
      assert Subscribed(h, t, i) == h[t := queues[i := []]];
      assert t in subscribers ==> subs.Values <= channels;
      hide Valid, Shows, TopicOK, TopicShows, Subscribed;
      s := AddOne(t, subs, i, queues);
      assert i in subs[i := s];
      Put(t, subs[i := s], {s}, h, queues[i := []]);
    }

    /** Puts new subscribers of topic t in place, some of them with channels that were not in the hub before. */
    method Put(t: K, subs: Topic<K, D>, ghost more: set<Subscriber<K, D>>, ghost h: Hub<K, D>,
        ghost queues: map<K, Queue<K, D>>)
      requires Valid() && Shows(h)
      requires subs.Values <= channels + more && TopicOK(t, subs) && TopicShows(subs, queues)
      modifies this
      ensures channels == old(channels) + more && Valid() && Shows(h[t := queues])
      ensures subscribers == old(subscribers)[t := subs]
    {
      hide TopicOK, TopicShows;
      channels := channels + more;
      subscribers := subscribers[t := subs];
      assert Valid();
      hide Valid;
    }

    /** Puts the new subscribers of topic t in place, or takes the topic out when there are none. */
    method Replace(t: K, subs: Topic<K, D>, ghost h: Hub<K, D>, ghost queues: map<K, Queue<K, D>>)
      requires forall u | u in subscribers && u != t :: subscribers[u].Values <= channels && TopicOK(u, subscribers[u])
      requires forall u | u in subscribers && u != t :: u in h && TopicShows(subscribers[u], h[u])
      requires h.Keys == subscribers.Keys
      requires subs.Values <= channels && (subs != map[] ==> TopicOK(t, subs)) && TopicShows(subs, queues)
      requires subs == map[] <==> queues == map[]
      modifies this`subscribers
      ensures Valid() && Shows(if queues == map[] then h - {t} else h[t := queues])
      ensures subscribers == if subs == map[] then old(subscribers) - {t} else old(subscribers)[t := subs]
    {
      hide TopicOK, TopicShows;
      ghost var after := if queues == map[] then h - {t} else h[t := queues];
      subscribers := if |subs| == 0 then subscribers - {t} else subscribers[t := subs];
      assert Valid();
      hide Valid;
      assert after.Keys == subscribers.Keys;
      assert forall u | u in subscribers :: TopicShows(subscribers[u], after[u]);
    }

    static method AddOne(t: K, subs: Topic<K, D>, i: K, ghost queues: map<K, Queue<K, D>>) returns (sub: Subscriber<K, D>)
      requires subs != map[] ==> TopicOK(t, subs)
      requires TopicShows(subs, queues)
      ensures fresh(sub)
      ensures TopicOK(t, subs[i := sub]) && TopicShows(subs[i := sub], queues[i := []])
    {
      sub := new Subscriber(i, t);
      assert i in subs[i := sub];
    }

    lemma TopicsAreDisjoint(t: K)
      requires Valid() && t in subscribers
      ensures forall u | u in subscribers && u != t :: subscribers[u].Values !! subscribers[t].Values
    {
      forall u | u in subscribers && u != t ensures subscribers[u].Values !! subscribers[t].Values {
        assert TopicOK(u, subscribers[u]) && TopicOK(t, subscribers[t]);
      }
    }

    /** The channel is closed and taken out of the hub; nothing else changes. */
    method Unsubscribe(t: K, i: K, ghost h: Hub<K, D>)
      requires Valid() && Shows(h)
      modifies this, channels
      ensures channels == old(channels) && Valid() && Shows(Unsubscribed(h, t, i))
      ensures t in h && i in h[t] ==> old(subscribers[t][i]).closed
    {
      if t in subscribers {
        var subs := subscribers[t];
        TopicsAreDisjoint(t);
        assert TopicOK(t, subs) && TopicShows(subs, h[t]);
        hide TopicOK, TopicShows;
        subs := CloseOne(t, subs, i, h[t]);
        Replace(t, subs, h, h[t] - {i});
      }
    }

    static method CloseOne(t: K, subs: Topic<K, D>, i: K, ghost queues: map<K, Queue<K, D>>)
      returns (left: Topic<K, D>)
      requires TopicOK(t, subs) && TopicShows(subs, queues)
      modifies subs.Values
      ensures left == subs - {i} && left.Values <= subs.Values
      ensures i in queues <==> i in subs
      ensures i in subs ==> subs[i].closed
      ensures left != map[] ==> TopicOK(t, left)
      ensures TopicShows(left, queues - {i}) && (left == map[] <==> queues - {i} == map[])
    {
      left := subs;
      if i in subs {
        subs[i].Close();
        left := left - {i};
      }
      assert left == subs - {i};
      assert (queues - {i}).Keys == left.Keys;
    }

    /** Every subscriber of the topic is offered the message; a full one loses it, and nobody else is affected. */
    method Publish(t: K, data: D, ghost h: Hub<K, D>)
      requires Valid() && Shows(h)
      modifies channels
      ensures Valid() && Shows(Published(h, t, Message(t, data)))
    {
      if t in subscribers {
        TopicsAreDisjoint(t);
        hide TopicOK, TopicShows;
        assert TopicOK(t, subscribers[t]) && TopicShows(subscribers[t], h[t]);
        OfferAll(t, subscribers[t], Message(t, data), h[t]);
        assert Valid();
      }
      hide Valid, TopicOK, TopicShows;
    }

    static method OfferAll(t: K, subs: Topic<K, D>, m: Message<K, D>, ghost queues: map<K, Queue<K, D>>)
      requires TopicOK(t, subs) && TopicShows(subs, queues)
      modifies subs.Values
      ensures TopicOK(t, subs) && TopicShows(subs, map i | i in queues :: Push(queues[i], m))
    {
      var rest := subs.Keys;
      while rest != {}
        invariant rest <= subs.Keys && TopicOK(t, subs)
        invariant forall j | j in subs :: subs[j].message == if j in rest then queues[j] else Push(queues[j], m)
        decreases rest
      {
        var i :| i in rest;
        subs[i].Offer(m);
        rest := rest - {i};
      }
    }

    /** The holder of a subscription takes the next message from its channel. */
    method Receive(t: K, i: K, ghost h: Hub<K, D>) returns (m: Option<Message<K, D>>)
      requires Valid() && Shows(h) && t in subscribers && i in subscribers[t]
      modifies channels
      ensures Valid() && Shows(Received(h, t, i))
      ensures t in h && i in h[t] && m == if h[t][i] == [] then None else Some(h[t][i][0])
    {
      TopicsAreDisjoint(t);
      assert TopicOK(t, subscribers[t]) && TopicShows(subscribers[t], h[t]);
      hide TopicOK, TopicShows;
      m := TakeOne(t, subscribers[t], i, h[t]);
      assert Valid();
      hide Valid;
    }

    static method TakeOne(t: K, subs: Topic<K, D>, i: K, ghost queues: map<K, Queue<K, D>>)
      returns (m: Option<Message<K, D>>)
      requires TopicOK(t, subs) && TopicShows(subs, queues) && i in subs
      modifies subs.Values
      ensures TopicOK(t, subs) && i in queues
      ensures m == if queues[i] == [] then None else Some(queues[i][0])
      ensures TopicShows(subs, if queues[i] == [] then queues else queues[i := queues[i][1..]])
    {
      var s := subs[i];
      if |s.message| == 0 {
        return None;
      }
      var first := s.Take();
      m := Some(first);
    }
  }

  // ---------------------------------------------------------------- any sequence of operations

  datatype Op<K(==), D> =
    | Subscribe(topic: K, id: K)
    | Unsubscribe(topic: K, id: K)
    | Publish(topic: K, data: D)
    | Receive(topic: K, id: K)

  function Apply<K(==), D>(h: Hub<K, D>, op: Op<K, D>): Hub<K, D> {
    match op
    case Subscribe(t, i) => Subscribed(h, t, i)
    case Unsubscribe(t, i) => Unsubscribed(h, t, i)
    case Publish(t, d) => Published(h, t, Message(t, d))
    case Receive(t, i) => Received(h, t, i)
  }

  function Run<K(==), D>(ops: seq<Op<K, D>>): Hub<K, D> {
    if ops == [] then map[] else Apply(Run(ops[..|ops| - 1]), ops[|ops| - 1])
  }

  /** No topic entry is ever empty between operations. */
  lemma {:induction false} NoEmptyTopic<K, D>(ops: seq<Op<K, D>>)
    ensures forall t | t in Run(ops) :: Run(ops)[t] != map[]
  {
    if ops != [] {
      NoEmptyTopic(ops[..|ops| - 1]);
      var h, op := Run(ops[..|ops| - 1]), ops[|ops| - 1];
      forall t | t in Apply(h, op) ensures Apply(h, op)[t] != map[] {
        if op.Publish? && t == op.topic {
          var i :| i in h[t];
          assert i in Apply(h, op)[t];
        } else if (op.Subscribe? || op.Receive?) && t == op.topic && op.id in Apply(h, op)[t] {
          assert Apply(h, op)[t] != map[];
        }
      }
    }
  }

  // ---------------------------------------------------------------- what one subscriber experiences

  /**
   * The life of one subscription: what was published on its topic since it began, how many messages were waiting at
   * each of those moments, what it has received, and what is waiting now.
   */
  datatype Life<K(==), D> = Life(offered: seq<Message<K, D>>, waiting: seq<nat>, received: seq<Message<K, D>>, queue: Queue<K, D>)

  /** The operations on its own topic and ID, and no others, determine a subscription's life. */
  function Live<K(==), D>(l: Option<Life<K, D>>, op: Op<K, D>, t: K, i: K): Option<Life<K, D>> {
    match op
    case Subscribe(u, j) => if u == t && j == i && l.None? then Some(Life([], [], [], [])) else l
    case Unsubscribe(u, j) => if u == t && j == i then None else l
    case Publish(u, d) =>
      if u != t || l.None? then l
      else
        var v := l.value;
        Some(Life(v.offered + [Message(t, d)], v.waiting + [|v.queue|], v.received, Push(v.queue, Message(t, d))))
    case Receive(u, j) =>
      if u == t && j == i && l.Some? && l.value.queue != [] then
        Some(l.value.(received := l.value.received + [l.value.queue[0]], queue := l.value.queue[1..]))
      else l
  }

  function LifeOf<K(==), D>(ops: seq<Op<K, D>>, t: K, i: K): Option<Life<K, D>> {
    if ops == [] then None else Live(LifeOf(ops[..|ops| - 1], t, i), ops[|ops| - 1], t, i)
  }

  /** The offered messages that found fewer than ten waiting, in their order. */
  function Kept<K(==), D>(offered: seq<Message<K, D>>, waiting: seq<nat>): seq<Message<K, D>>
    requires |offered| == |waiting|
  {
    if offered == [] then []
    else
      var n := |offered| - 1;
      Kept(offered[..n], waiting[..n]) + if waiting[n] < 10 then [offered[n]] else []
  }

  function QueueIn<K(==), D>(h: Hub<K, D>, t: K, i: K): Option<Queue<K, D>> {
    if t in h && i in h[t] then Some(h[t][i]) else None
  }

  /** Topics and subscribers do not affect each other: the shared hub holds for each exactly its own life's queue. */
  lemma {:induction false} SubscribersAreIndependent<K, D>(ops: seq<Op<K, D>>, t: K, i: K)
    ensures var l := LifeOf(ops, t, i);
      QueueIn(Run(ops), t, i) == if l.Some? then Some(l.value.queue) else None
  {
    if ops != [] {
      SubscribersAreIndependent(ops[..|ops| - 1], t, i);
      OperationIs(Run(ops[..|ops| - 1]), ops[|ops| - 1], t, i);
    }
  }

  /** What one operation does to any one queue: all operations but these leave it as it is. */
  lemma OperationIs<K, D>(h: Hub<K, D>, op: Op<K, D>, t: K, i: K)
    ensures var before, after := QueueIn(h, t, i), QueueIn(Apply(h, op), t, i);
      if op == Subscribe(t, i) then after == Some(if before.Some? then before.value else [])
      else if op == Unsubscribe(t, i) then after == None
      else if op.Publish? && op.topic == t && before.Some? then
        after == Some(if |before.value| < 10 then before.value + [Message(t, op.data)] else before.value)
      else if op == Receive(t, i) && before.Some? && before.value != [] then
        after.Some? && before.value == [before.value[0]] + after.value
      else after == before
  {
    if op.Unsubscribe? && op.topic in h && op.topic == t {
      assert i in h[t] && i != op.id ==> i in h[t] - {op.id};
    }
  }

  /** The k-th operation subscribes, and none after it unsubscribes. */
  ghost predicate SubscribedAt<K, D>(ops: seq<Op<K, D>>, t: K, i: K, k: nat) {
    k < |ops| && ops[k] == Subscribe(t, i) && Unsubscribe(t, i) !in ops[k + 1..]
  }

  lemma SubscribedOneMore<K, D>(init: seq<Op<K, D>>, op: Op<K, D>, t: K, i: K, k: nat)
    ensures SubscribedAt(init + [op], t, i, k)
       <==> (k == |init| && op == Subscribe(t, i)) || (SubscribedAt(init, t, i, k) && op != Unsubscribe(t, i))
  {
    if k < |init| {
      assert (init + [op])[k + 1..] == init[k + 1..] + [op];
    }
  }

  /** A subscriber is registered exactly if it subscribed and did not unsubscribe since. */
  lemma {:induction false} RegisteredIff<K, D>(ops: seq<Op<K, D>>, t: K, i: K)
    ensures QueueIn(Run(ops), t, i).Some? <==> exists k: nat :: SubscribedAt(ops, t, i, k)
  {
    if ops != [] {
      var init, op := ops[..|ops| - 1], ops[|ops| - 1];
      assert ops == init + [op];
      OneMore(ops);
      hide QueueIn, Apply, Run, SubscribedAt;
      RegisteredIff(init, t, i);
      OperationIs(Run(init), op, t, i);
      forall k: nat ensures SubscribedAt(ops, t, i, k)
        <==> (k == |init| && op == Subscribe(t, i)) || (SubscribedAt(init, t, i, k) && op != Unsubscribe(t, i))
      {
        SubscribedOneMore(init, op, t, i, k);
      }
      assert op == Subscribe(t, i) ==> SubscribedAt(ops, t, i, |init|);
    }
  }

  lemma OneMore<K, D>(ops: seq<Op<K, D>>)
    requires ops != []
    ensures Run(ops) == Apply(Run(ops[..|ops| - 1]), ops[|ops| - 1])
  {
  }

  /**
   * What a subscriber has received, followed by what waits for it, is exactly the published messages of its topic
   * since it subscribed, in order, less those published while ten were waiting.
   */
  lemma {:induction false} FirstInFirstOut<K, D>(ops: seq<Op<K, D>>, t: K, i: K)
    ensures var l := LifeOf(ops, t, i);
      l.Some? ==>
        && |l.value.offered| == |l.value.waiting| && |l.value.queue| <= 10
        && l.value.received + l.value.queue == Kept(l.value.offered, l.value.waiting)
  {
    if ops != [] {
      var init, op := ops[..|ops| - 1], ops[|ops| - 1];
      FirstInFirstOut(init, t, i);
      var was := LifeOf(init, t, i);
      if was.Some? {
        var v := was.value;
        match op
        case Publish(u, d) =>
          var m := Message(t, d);
          var offered, waiting := v.offered + [m], v.waiting + [|v.queue|];
          assert offered[..|v.offered|] == v.offered && waiting[..|v.waiting|] == v.waiting;
          assert v.received + (v.queue + [m]) == v.received + v.queue + [m];
        case Receive(u, j) =>
          if v.queue != [] {
            assert v.received + [v.queue[0]] + v.queue[1..] == v.received + v.queue;
          }
        case _ =>
      }
    }
  }

  /** Where a subscription began, with no unsubscription since. */
  ghost predicate BeganAt<K, D>(ops: seq<Op<K, D>>, t: K, i: K, k: nat) {
    && k < |ops| && ops[k] == Subscribe(t, i) && LifeOf(ops[..k], t, i).None?
    && Unsubscribe(t, i) !in ops[k + 1..]
  }

  /** The life records exactly the publications of its topic since the last successful subscription. */
  lemma {:induction false} OfferedSinceSubscription<K, D>(ops: seq<Op<K, D>>, t: K, i: K) returns (k: nat)
    requires LifeOf(ops, t, i).Some?
    ensures BeganAt(ops, t, i, k)
    ensures LifeOf(ops, t, i).value.offered == PublishedOn(ops[k + 1..], t)
  {
    var n := |ops| - 1;
    var init, op := ops[..n], ops[n];
    if LifeOf(init, t, i).None? {
      k := n;
      assert ops[n + 1..] == [];
    } else {
      k := OfferedSinceSubscription(init, t, i);
      assert ops[..k] == init[..k];
      PublishedOneMore(init[k + 1..], op, t);
      assert ops[k + 1..] == init[k + 1..] + [op];
    }
  }

  lemma PublishedOneMore<K, D>(ops: seq<Op<K, D>>, op: Op<K, D>, t: K)
    ensures PublishedOn(ops + [op], t)
         == PublishedOn(ops, t) + if op.Publish? && op.topic == t then [Message(t, op.data)] else []
  {
    assert (ops + [op])[..|ops|] == ops;
  }

  function PublishedOn<K(==), D>(ops: seq<Op<K, D>>, t: K): seq<Message<K, D>> {
    if ops == [] then []
    else
      var op := ops[|ops| - 1];
      PublishedOn(ops[..|ops| - 1], t) + if op.Publish? && op.topic == t then [Message(t, op.data)] else []
  }
}
