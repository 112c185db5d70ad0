/** The pipeline with the real reconciler, the real host maps and the real text form. */
module Propagation {
  import opened Base
  import opened Text
  import opened ConfigMaps
  import opened EcsNode
  import opened Pipeline
  import D = Discovery

  ghost predicate Moves(ifs: Interfaces, o: Owner<Hosts>, o': Owner<Hosts>, publish: bool) {
    exists e :: MovesBy(ifs, o, e, o', publish)
  }

  /** The reconcile that is told `e` takes the publisher from o to o'. */
  ghost predicate MovesBy(ifs: Interfaces, o: Owner<Hosts>, e: Event, o': Owner<Hosts>, publish: bool) {
    var p := Publisher(o.hosts, o.done);
    CommaFreeEvent(e) && Publisher(o'.hosts, o'.done) == After(p, e, ifs) && publish == Publishes(p, e, ifs)
  }

  ghost function Program(ifs: Interfaces): System<Hosts, Texts> {
    System(
      map[],
      (o, o', publish) => Moves(ifs, o, o', publish),
      h => OwnKey(h),
      t => ParseData(t),
      (t, h) => Renders(t, h))
  }

  lemma ReconcilesFit(ifs: Interfaces, o: Owner<Hosts>, o': Owner<Hosts>, publish: bool)
    requires Moves(ifs, o, o', publish)
    ensures OwnKey(o.hosts) ==> OwnKey(o'.hosts)
    ensures o'.hosts != o.hosts ==> publish
  {
    var e :| MovesBy(ifs, o, e, o', publish);
    var p := Publisher(o.hosts, o.done);
    hide OwnKey, After, Publishes, CommaFreeEvent;
    ChangeIsPublished(p, e, ifs);
    if OwnKey(o.hosts) {
      ReconcileKeepsOwn(p, e, ifs);
    }
  }

  lemma TextsReadBack(t: Texts, h: Hosts)
    requires OwnKey(h) && Renders(t, h)
    ensures ParseData(t) == h
  {
    hide Renders, Writable;
    RoundTripIff(t, h);
  }

  lemma ProgramIsSound(ifs: Interfaces)
    ensures Sound(Program(ifs))
  {
    var sys := Program(ifs);
    assert sys.fit(sys.empty);
    hide OwnKey, Moves, Renders, ParseData;
    forall o, o', publish | sys.moves(o, o', publish)
      ensures (sys.fit(o.hosts) ==> sys.fit(o'.hosts)) && (o'.hosts != o.hosts ==> publish)
    {
      ReconcilesFit(ifs, o, o', publish);
    }
    forall t, h | sys.fit(h) && sys.renders(t, h) ensures sys.parse(t) == h {
      TextsReadBack(t, h);
    }
  }

  /**
   * The two programs together: when nothing is pending, every subscriber has the publisher's host map, and if it is
   * not empty the ConfigMap of the API server reads back as it.
   */
  lemma HostsAgreeAtQuiescence(ifs: Interfaces, r: Run<Hosts, Texts>, n: nat)
    requires IsRun(Program(ifs), Aliased, r) && n < |r.states| && Quiescent(r.states[n])
    ensures var s := r.states[n];
      && s.heap != [] && OwnKey(s.heap[0])
      && (forall i | 0 <= i < |s.subs| :: s.subs[i].data == s.heap[0])
      && (s.heap[0] != map[] ==> s.cm.Some? && ParseData(s.cm.value.text) == s.heap[0])
  {
    var sys := Program(ifs);
    ProgramIsSound(ifs);
    hide OwnKey, IsRun, ParseData, Sound, Quiescent;
    RunInv(sys, r, n);
    AgreementAtQuiescence(sys, r, n);
  }

  /** The ConfigMap loop of the pipeline decides as the synchroniser does. */
  lemma SameDecisions(ifs: Interfaces, s: State<Hosts, Texts>, reachable: bool)
    requires Shaped(s)
    ensures var cm := if s.cm.None? then None else Some(ConfigMap(s.cm.value.text, s.cm.value.deleting));
      && Pipeline.NeedsSync(Program(ifs), s, reachable) == ConfigMaps.NeedsSync(s.subs[0].data, reachable, cm)
      && Pipeline.Says(Program(ifs), s) == ConfigMaps.Says(s.subs[0].data, cm)
  {
  }

  /** A text the ConfigMap writer wrote gives each node's addresses to the etcd side, once each and no others. */
  lemma WrittenTextReachesEtcd(t: Texts, h: Hosts, k: string)
    requires OwnKey(h) && Renders(t, h) && k in h
    ensures var read := D.ReadIPFile(D.Entry(k, false, true, D.Content(t[k])));
      read.Some? && Lists(read.value, h[k]) && k in read.value
  {
    hide Writable, RendersEntry;
    assert k in h[k] && RendersEntry(t[k], h[k]);
    NodeFileGivesEachIPOnce(k, t[k], h[k]);
    assert k in ToSet(D.ReadIPFile(D.Entry(k, false, true, D.Content(t[k]))).value);
  }

  // ---------------------------------------------------------------- the contrast: copies instead of references

  function Ones(n: nat): (s: string)
    ensures |s| == n && Trimmed(s) && '/' !in s && ',' !in s
  {
    seq(n, i => '1')
  }

  const CARD: Interfaces := Interfaces({"eth0"}, "eth0")

  function NodeAt(n: nat): Node {
    Node([Some(Endpoint("eth0", Ones(n)))], false)
  }

  function EventAt(n: nat): Event {
    Event(Some([]), Some(NodeAt(n)))
  }

  lemma NodeAtIs(n: nat)
    requires n > 0
    ensures MasterOf(NodeAt(n).endpoints, CARD) == Ones(n) && CommaFreeEvent(EventAt(n))
  {
    SplitFirst(Ones(n), "", '/');
    var ep := NodeAt(n).endpoints[0];
    assert Address(ep.value) == Ones(n) && OnMaster(ep, CARD);
    assert NodeAt(n).endpoints == [] + [ep];
    OneMoreEndpoint([], ep, CARD);
    assert forall x | x in NodeAt(n).endpoints :: x == ep;
  }

  /** The first reconcile lists no node; each later one finds a node with a new master address. */
  ghost function OwnerAt(n: nat): Publisher {
    if n == 0 then Publisher(map[], false) else After(OwnerAt(n - 1), EventAt(n), CARD)
  }

  lemma OwnerStep(n: nat)
    requires n > 0 && OwnerAt(n - 1).done == (n > 1)
    ensures var was := OwnerAt(n - 1).hosts;
      OwnerAt(n) == Publisher(if n == 1 then was else was[Ones(n) := IPsOf(NodeAt(n).endpoints, CARD)], true)
  {
    NodeAtIs(n);
    hide MasterOf, IPsOf, Ones, CommaFreeEvent;
  }

  lemma OwnerPublishes(n: nat)
    requires n > 0 && OwnerAt(n - 1).done == (n > 1) && Ones(n) !in OwnerAt(n - 1).hosts
    ensures Publishes(OwnerAt(n - 1), EventAt(n), CARD)
  {
    NodeAtIs(n);
    hide MasterOf, IPsOf, CommaFreeEvent, OwnerAt;
  }

  lemma {:induction false} OwnersGrow(n: nat)
    ensures OwnerAt(n).done == (n > 0)
    ensures forall k | k in OwnerAt(n).hosts :: |k| <= n
    ensures n > 1 ==> Ones(n) in OwnerAt(n).hosts
    ensures n > 0 ==> Publishes(OwnerAt(n - 1), EventAt(n), CARD)
  {
    if n > 0 {
      OwnersGrow(n - 1);
      hide Publishes, OwnerAt, IPsOf, Ones;
      OwnerStep(n);
      assert |Ones(n)| == n;
      OwnerPublishes(n);
    }
  }

  lemma EveryMapCanBeWritten(h: Hosts) returns (t: Texts)
    ensures Renders(t, h)
  {
    hide RendersEntry;
    forall k | k in h ensures exists v :: RendersEntry(v, h[k]) {
      EverySetCanBeWritten(h[k]);
    }
    t := map k | k in h :: var v :| RendersEntry(v, h[k]); v;
  }

  lemma EverySetCanBeWritten(ips: set<string>)
    ensures exists v :: RendersEntry(v, ips)
  {
    var list := Listing(ips);
    assert RendersEntry(Join(list, ','), ips);
  }

  lemma {:induction false} Listing(ips: set<string>) returns (list: seq<string>)
    ensures Lists(list, ips)
    decreases ips
  {
    list := [];
    if ips != {} {
      var x :| x in ips;
      var rest := Listing(ips - {x});
      assert x !in ToSet(rest);
      list := rest + [x];
      assert ToSet(list) == ToSet(rest) + {x};
    }
  }

  lemma MovesOn(n: nat)
    ensures var p, q := OwnerAt(n), OwnerAt(n + 1);
      Moves(CARD, Owner(p.hosts, p.done), Owner(q.hosts, q.done), true)
  {
    OwnersGrow(n + 1);
    NodeAtIs(n + 1);
    var p, q := OwnerAt(n), OwnerAt(n + 1);
    hide Publishes, CommaFreeEvent, Ones, After;
    assert q == After(p, EventAt(n + 1), CARD);
    assert MovesBy(CARD, Owner(p.hosts, p.done), EventAt(n + 1), Owner(q.hosts, q.done), true);
  }

  ghost function Owners(): (owners: seq<Owner<Hosts>>)
    ensures |owners| == ROUNDS + 1
    ensures forall n: nat | n <= ROUNDS :: owners[n] == Owner(OwnerAt(n).hosts, OwnerAt(n).done)
  {
    seq(ROUNDS + 1, i requires 0 <= i => Owner(OwnerAt(i).hosts, OwnerAt(i).done))
  }

  lemma LastIsNew()
    ensures Owners()[ROUNDS].hosts != Owners()[CAPACITY].hosts
  {
    OwnersGrow(ROUNDS);
    OwnersGrow(CAPACITY);
    hide OwnerAt, Publishes;
    assert |Ones(ROUNDS)| > CAPACITY;
  }

  lemma OwnersSucceed()
    ensures Succession(Program(CARD), Owners())
  {
    var sys, owners := Program(CARD), Owners();
    ProgramIsSound(CARD);
    assert owners[0] == Owner(sys.empty, false);
    hide OwnKey, OwnerAt, Owners, Ones, Renders, Sound, Moves;
    forall n | 0 <= n < ROUNDS ensures sys.moves(owners[n], owners[n + 1], true) {
      MovesOn(n);
    }
    forall h | sys.fit(h) ensures exists t :: sys.renders(t, h) {
      var t := EveryMapCanBeWritten(h);
      assert sys.renders(t, h);
    }
  }

  /** The same program, sending copies of its map, can end with nothing pending and a subscriber that missed a node. */
  lemma CopiesWouldLoseAnUpdate() returns (r: Run<Hosts, Texts>)
    ensures IsRun(Program(CARD), Snapshot, r) && Quiescent(Last(r)) && Shaped(Last(r)) && !Agreement(Program(CARD), Last(r))
  {
    OwnersSucceed();
    LastIsNew();
    hide Program, Owners, IsRun, Quiescent, Shaped, Agreement, Succession;
    r := SnapshotsLoseTheLast(Program(CARD), Owners());
  }
}
