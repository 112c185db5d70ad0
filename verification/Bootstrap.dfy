/**
 * All pods together: every pod iterates its loop over one shared world of etcd clusters.
 *
 * A step is one whole loop iteration of one pod (with the discovery snapshot it acts on), the end of an etcd
 * process with its data kept or lost, the publication of a started member's name, or the removal of any member of
 * any cluster by anyone.
 */
module Bootstrap {
  import opened Base
  import opened Text
  import opened Members
  import opened Joining
  import opened JoinFacts

  type Config = seq<Pod>

  datatype World = World(
    clusters: map<nat, seq<Member>>,   // the member list of every cluster ever founded
    founder: map<nat, nat>,            // the member ID each cluster was founded with
    ids: set<nat>,                     // member IDs given out so far
    disks: seq<Option<Data>>,          // by pod index
    children: seq<Option<Data>>)       // the running etcd of each pod, by pod index

  datatype Verdict = Ready | NotReady | Unreachable | Unreadable

  datatype Action =
    | Iterate(p: nat, seen: seq<Verdict>, via: nat, dead: set<string>, env: Env, newCluster: nat)
    | Exit(p: nat, keep: bool)
    | Publish(p: nat)
    | Evict(c: nat, id: nat)

  // ---------------------------------------------------------------- steps

  function DecisionOf(a: Action): Decision
    requires a.Iterate?
  {
    Decide(Ready in a.seen, NotReady in a.seen, a.p)
  }

  /** What pod p sees and owns when it talks to cluster c. */
  function SiteOf(w: World, p: nat, c: nat): Site
    requires p < |w.disks| && c in w.clusters
  {
    Site(c, w.clusters[c], [], w.disks[p], None, Unset)
  }

  function PassOf(cfg: Config, w: World, a: Action): Pass
    requires Shaped(cfg, w) && Possible(cfg, w, a) && a.Iterate? && (DecisionOf(a) == JoinReady || DecisionOf(a) == FoundNew)
  {
    if DecisionOf(a) == JoinReady then
      JoinPass(SiteOf(w, a.p, w.children[a.via].value.cluster), cfg[a.p], a.dead, a.env)
    else
      InitPass(Site(a.newCluster, [], [], w.disks[a.p], None, Unset), cfg[a.p], a.newCluster, a.env)
  }

  function AfterJoin(w: World, p: nat, r: Site, env: Env): World
    requires p < |w.disks| == |w.children|
  {
    w.(clusters := w.clusters[r.cluster := r.members], ids := w.ids + {env.newID},
       disks := w.disks[p := r.disk], children := w.children[p := r.child])
  }

  function AfterFounding(w: World, p: nat, r: Site, env: Env): World
    requires p < |w.disks| == |w.children|
  {
    World(w.clusters[r.cluster := r.members], w.founder[r.cluster := env.newID], w.ids + {env.newID},
          w.disks[p := r.disk], w.children[p := r.child])
  }

  function Next(cfg: Config, w: World, a: Action): World
    requires Shaped(cfg, w) && Possible(cfg, w, a)
  {
    match a
    case Iterate(p, _, _, _, env, newCluster) =>
      if DecisionOf(a) == JoinReady then
        AfterJoin(w, p, PassOf(cfg, w, a).site, env)
      else if DecisionOf(a) == FoundNew then
        var r := PassOf(cfg, w, a);
        if r.outcome == Started then AfterFounding(w, p, r.site, env) else w.(disks := w.disks[p := r.site.disk])
      else w
    case Exit(p, keep) =>
      w.(children := w.children[p := None], disks := if keep then w.disks else w.disks[p := None])
    case Publish(p) =>
      var d := w.children[p].value;
      w.(clusters := w.clusters[d.cluster := Named(w.clusters[d.cluster], d.member, cfg[p].name)])
    case Evict(c, id) =>
      w.(clusters := w.clusters[c := Drop(w.clusters[c], id)])
  }

  /** What an iteration does to the world, by what it has seen. */
  lemma NextDecides(cfg: Config, w: World, a: Action)
    requires Shaped(cfg, w) && Possible(cfg, w, a) && a.Iterate?
    ensures var w' := Next(cfg, w, a);
      if Ready in a.seen then
        && a.via < |a.seen| && a.seen[a.via] == Ready && w.children[a.via].Some?
        && var c := w.children[a.via].value.cluster;
           var r := JoinPass(SiteOf(w, a.p, c), cfg[a.p], a.dead, a.env).site;
           && w'.clusters == w.clusters[c := r.members] && w'.founder == w.founder
           && w'.disks == w.disks[a.p := r.disk] && w'.children == w.children[a.p := r.child]
      else if NotReady in a.seen || a.p != 0 then w' == w
      else if a.env.start then
        var d := Some(Data(a.newCluster, a.env.newID));
        && w'.clusters == w.clusters[a.newCluster := [Member(a.env.newID, cfg[0].name, a.env.arrange(cfg[0].URLs()), false)]]
        && w'.disks == w.disks[0 := d] && w'.children == w.children[0 := d]
      else w' == w.(disks := w.disks[0 := None])
  {
    hide JoinPass;
    if Ready in a.seen {
      JoinClusterStays(SiteOf(w, a.p, w.children[a.via].value.cluster), cfg[a.p], a.dead, a.env);
    }
  }

  function Named(members: seq<Member>, id: nat, name: string): (r: seq<Member>)
    ensures |r| == |members|
    ensures forall i | 0 <= i < |members| ::
      r[i] == if members[i].id == id then members[i].(name := name) else members[i]
  {
    seq(|members|, i requires 0 <= i < |members| =>
      if members[i].id == id then members[i].(name := name) else members[i])
  }

  ghost predicate Shaped(cfg: Config, w: World) {
    && |w.disks| == |w.children| == |cfg|
    && w.clusters.Keys == w.founder.Keys
    && forall p | 0 <= p < |cfg| && w.children[p].Some? :: w.children[p].value.cluster in w.clusters
  }

  /** What an action needs to make sense at all. A pod iterates only while it has no etcd process. */
  ghost predicate Possible(cfg: Config, w: World, a: Action)
    requires Shaped(cfg, w)
  {
    match a
    case Iterate(p, seen, via, _, env, newCluster) =>
      && p < |cfg| && w.children[p].None? && |seen| == |cfg| && env.sigterm
      && env.newID != 0 && env.newID !in w.ids
      && multiset(env.arrange(cfg[p].URLs())) == multiset(cfg[p].URLs())
      && newCluster !in w.clusters
      && (DecisionOf(a) == JoinReady ==> via < |cfg| && seen[via] == Ready && w.children[via].Some?)
    case Exit(p, _) => p < |cfg|
    case Publish(p) => p < |cfg| && w.children[p].Some?
    case Evict(c, _) => c in w.clusters
  }

  /** The deployment's premise: a running etcd is never seen as unreachable, and its node file can be read. */
  ghost predicate Faithful(w: World, a: Action)
    requires a.Iterate? ==> |a.seen| == |w.children|
  {
    a.Iterate? ==> forall q | 0 <= q < |w.children| && w.children[q].Some? :: (a.seen[q] == Ready || a.seen[q] == NotReady)
  }

  ghost predicate Step(cfg: Config, w: World, a: Action, w': World) {
    Shaped(cfg, w) && Possible(cfg, w, a) && Faithful(w, a) && w' == Next(cfg, w, a)
  }

  // ---------------------------------------------------------------- who owns a member

  ghost predicate ValidConfig(cfg: Config) {
    && (forall p | 0 <= p < |cfg| :: ValidPod(cfg[p]))
    && (forall p, q | 0 <= p < q < |cfg| :: cfg[p].name != cfg[q].name && cfg[p].Me().urls != cfg[q].Me().urls)
  }

  ghost predicate Owns(pod: Pod, m: Member) {
    (m.name == "" || m.name == pod.name) && multiset(m.peerURLs) == multiset(pod.URLs())
  }

  /** A member is recognised by the pod that owns it and by no other. */
  lemma OwnerRecognises(cfg: Config, p: nat, q: nat, m: Member)
    requires ValidConfig(cfg) && p < |cfg| && q < |cfg| && Owns(cfg[p], m)
    ensures IsSelf(m, cfg[q].Me()) <==> q == p
  {
    var pod := cfg[p];
    SameElements(m.peerURLs, pod.URLs());
    PeerURLsKeepDistinct(pod.ips, pod.port);
    MatchIsSetEquality(m.peerURLs, cfg[q].Me().urls);
    assert pod.URLs()[0] in pod.URLs();
  }

  // ---------------------------------------------------------------- the invariant

  ghost predicate ListOK(cfg: Config, w: World, c: nat)
    requires Shaped(cfg, w) && c in w.clusters
  {
    && w.founder[c] in w.ids
    && (forall m | m in w.clusters[c] :: m.id in w.ids && (m.id == w.founder[c] ==> !m.isLearner))
    && (forall m | m in w.clusters[c] :: exists p :: 0 <= p < |cfg| && Owns(cfg[p], m))
    && (forall p | 0 <= p < |cfg| :: Tidy(w.clusters[c], cfg[p].Me()))
  }

  /** The member a data directory names is, if still listed, the directory's own pod. */
  ghost predicate DiskOK(cfg: Config, w: World, p: nat)
    requires Shaped(cfg, w) && p < |cfg|
  {
    && (w.disks[p].Some? ==>
      var d := w.disks[p].value;
      && d.cluster in w.clusters && d.member in w.ids
      && forall m | m in w.clusters[d.cluster] && m.id == d.member :: IsSelf(m, cfg[p].Me()))
    && (w.children[p].Some? ==> w.children[p] == w.disks[p])
  }

  /** Member lists and disks are in order; how many clusters run does not matter here. */
  ghost predicate Sane(cfg: Config, w: World) {
    && Shaped(cfg, w)
    && 0 !in w.ids
    && (forall c | c in w.clusters :: ListOK(cfg, w, c))
    && (forall p | 0 <= p < |cfg| :: DiskOK(cfg, w, p))
  }

  ghost predicate Initial(cfg: Config, w: World) {
    w == World(map[], map[], {}, seq(|cfg|, i => None), seq(|cfg|, i => None))
  }

  /** A step in which discovery may miss a running etcd. */
  ghost predicate LossyStep(cfg: Config, w: World, a: Action, w': World) {
    Shaped(cfg, w) && Possible(cfg, w, a) && w' == Next(cfg, w, a)
  }

  // ---------------------------------------------------------------- one lemma per kind of step

  lemma ListStays(cfg: Config, w: World, w': World, c: nat)
    requires Shaped(cfg, w) && Shaped(cfg, w') && c in w.clusters && c in w'.clusters && ListOK(cfg, w, c)
    requires w'.clusters[c] == w.clusters[c] && w'.founder[c] == w.founder[c] && w.ids <= w'.ids
    ensures ListOK(cfg, w', c)
  {
  }

  lemma DiskStays(cfg: Config, w: World, w': World, p: nat)
    requires Shaped(cfg, w) && Shaped(cfg, w') && p < |cfg| && DiskOK(cfg, w, p)
    requires w'.disks[p] == w.disks[p] && (w'.children[p] == w.children[p] || w'.children[p].None?) && w.ids <= w'.ids
    requires w.disks[p].Some? ==> var c := w.disks[p].value.cluster; c in w'.clusters && w'.clusters[c] == w.clusters[c]
    ensures DiskOK(cfg, w', p)
  {
  }

  lemma ExitStaysSane(cfg: Config, w: World, a: Action, w': World)
    requires Sane(cfg, w) && Possible(cfg, w, a) && a.Exit? && w' == Next(cfg, w, a)
    ensures Sane(cfg, w')
  {
    hide IsSelf, Tidy, Owns;
    forall c | c in w'.clusters ensures ListOK(cfg, w', c) {
      assert ListOK(cfg, w, c);
    }
    forall p | 0 <= p < |cfg| ensures DiskOK(cfg, w', p) {
      assert DiskOK(cfg, w, p);
    }
  }

  lemma EvictKeepsList(cfg: Config, w: World, c: nat, id: nat, w': World)
    requires Shaped(cfg, w) && c in w.clusters && ListOK(cfg, w, c)
    requires Shaped(cfg, w') && w' == w.(clusters := w.clusters[c := Drop(w.clusters[c], id)])
    ensures ListOK(cfg, w', c)
  {
    hide IsSelf, Owns;
  }

  lemma EvictStaysSane(cfg: Config, w: World, a: Action, w': World)
    requires Sane(cfg, w) && Possible(cfg, w, a) && a.Evict? && w' == Next(cfg, w, a)
    ensures Sane(cfg, w')
  {
    assert Shaped(cfg, w) && Shaped(cfg, w');
    hide IsSelf, Owns, ListOK;
    forall p | 0 <= p < |cfg| ensures DiskOK(cfg, w', p) {
      assert DiskOK(cfg, w, p);
    }
    hide DiskOK;
    EvictKeepsList(cfg, w, a.c, a.id, w');
    forall c | c in w'.clusters && c != a.c ensures ListOK(cfg, w', c) {
      ListStays(cfg, w, w', c);
    }
  }

  lemma NamedSource(members: seq<Member>, id: nat, name: string, v: Member) returns (m: Member)
    requires v in Named(members, id, name)
    ensures m in members && v == if m.id == id then m.(name := name) else m
  {
    var i :| 0 <= i < |members| && Named(members, id, name)[i] == v;
    m := members[i];
  }

  /** Giving a pod's name to the member that is this pod changes nobody's view of who that member is. */
  lemma NamingKeepsOwners(cfg: Config, w: World, p: nat, v: Member) returns (m: Member)
    requires ValidConfig(cfg) && Sane(cfg, w) && p < |cfg| && w.children[p].Some?
    requires var d := w.children[p].value; v in Named(w.clusters[d.cluster], d.member, cfg[p].name)
    ensures var d := w.children[p].value;
      m in w.clusters[d.cluster] && v == if m.id == d.member then m.(name := cfg[p].name) else m
    ensures exists q :: 0 <= q < |cfg| && Owns(cfg[q], v)
    ensures forall q | 0 <= q < |cfg| :: IsSelf(v, cfg[q].Me()) <==> IsSelf(m, cfg[q].Me())
  {
    var d := w.children[p].value;
    assert ListOK(cfg, w, d.cluster) && DiskOK(cfg, w, p);
    m := NamedSource(w.clusters[d.cluster], d.member, cfg[p].name, v);
    var o :| 0 <= o < |cfg| && Owns(cfg[o], m);
    OwnerRecognises(cfg, o, p, m);
    assert Owns(cfg[o], v);
    forall q | 0 <= q < |cfg| ensures IsSelf(v, cfg[q].Me()) <==> IsSelf(m, cfg[q].Me()) {
      OwnerRecognises(cfg, o, q, m);
      OwnerRecognises(cfg, o, q, v);
    }
  }

  ghost predicate Published(cfg: Config, w: World, p: nat, w': World) {
    && ValidConfig(cfg) && Sane(cfg, w) && p < |cfg| && w.children[p].Some?
    && var d := w.children[p].value;
       w' == w.(clusters := w.clusters[d.cluster := Named(w.clusters[d.cluster], d.member, cfg[p].name)])
  }

  lemma NamingKeepsPair(cfg: Config, w: World, p: nat, q: nat, renamed: seq<Member>, x: Member, y: Member)
    requires ValidConfig(cfg) && Sane(cfg, w) && p < |cfg| && q < |cfg| && w.children[p].Some?
    requires var d := w.children[p].value; renamed == Named(w.clusters[d.cluster], d.member, cfg[p].name)
    requires x in renamed && y in renamed
    ensures x.id != 0 && (x.id == y.id ==> x == y)
    ensures IsSelf(x, cfg[q].Me()) && IsSelf(y, cfg[q].Me()) ==> x.id == y.id
  {
    var d := w.children[p].value;
    assert Tidy(w.clusters[d.cluster], cfg[q].Me()) by {
      assert ListOK(cfg, w, d.cluster);
    }
    hide IsSelf, Owns, Sane, ListOK, ValidConfig, Named, Pod.Me, Shaped;
    var m := NamingKeepsOwners(cfg, w, p, x);
    var n := NamingKeepsOwners(cfg, w, p, y);
  }

  lemma NamingKeepsTidy(cfg: Config, w: World, p: nat, q: nat, renamed: seq<Member>)
    requires ValidConfig(cfg) && Sane(cfg, w) && p < |cfg| && q < |cfg| && w.children[p].Some?
    requires var d := w.children[p].value; renamed == Named(w.clusters[d.cluster], d.member, cfg[p].name)
    ensures Tidy(renamed, cfg[q].Me())
  {
    hide IsSelf, Owns, Sane, ListOK, ValidConfig, Named, Pod.Me, Shaped;
    forall x, y | x in renamed && y in renamed
      ensures x.id != 0 && (x.id == y.id ==> x == y)
      ensures IsSelf(x, cfg[q].Me()) && IsSelf(y, cfg[q].Me()) ==> x.id == y.id
    {
      NamingKeepsPair(cfg, w, p, q, renamed, x, y);
    }
  }

  lemma PublishKeepsList(cfg: Config, w: World, p: nat, w': World)
    requires Published(cfg, w, p, w') && Shaped(cfg, w')
    ensures ListOK(cfg, w', w.children[p].value.cluster)
  {
    var d := w.children[p].value;
    var renamed := w'.clusters[d.cluster];
    assert ListOK(cfg, w, d.cluster);
    forall q | 0 <= q < |cfg| ensures Tidy(renamed, cfg[q].Me()) {
      NamingKeepsTidy(cfg, w, p, q, renamed);
    }
    hide IsSelf, Owns, Sane, Tidy;
    forall v | v in renamed
      ensures v.id in w.ids && (v.id == w.founder[d.cluster] ==> !v.isLearner)
      ensures exists q :: 0 <= q < |cfg| && Owns(cfg[q], v)
    {
      var m := NamingKeepsOwners(cfg, w, p, v);
    }
  }

  lemma PublishKeepsDisks(cfg: Config, w: World, p: nat, w': World, q: nat)
    requires Published(cfg, w, p, w') && Shaped(cfg, w') && q < |cfg|
    ensures DiskOK(cfg, w', q)
  {
    assert DiskOK(cfg, w, q);
    var c0 := w.children[p].value.cluster;
    if w.disks[q].Some? && w.disks[q].value.cluster == c0 {
      forall v | v in w'.clusters[c0] && v.id == w.disks[q].value.member ensures IsSelf(v, cfg[q].Me()) {
        var m := NamingKeepsOwners(cfg, w, p, v);
      }
    }
  }

  lemma PublishStaysSane(cfg: Config, w: World, p: nat, w': World)
    requires Published(cfg, w, p, w') && Shaped(cfg, w')
    ensures Sane(cfg, w')
  {
    hide ListOK, DiskOK, Named;
    PublishKeepsList(cfg, w, p, w');
    forall c | c in w'.clusters ensures ListOK(cfg, w', c) {
      if c != w.children[p].value.cluster {
        ListStays(cfg, w, w', c);
      }
    }
    forall q | 0 <= q < |cfg| ensures DiskOK(cfg, w', q) {
      PublishKeepsDisks(cfg, w, p, w', q);
    }
  }

  /** A member of the list after a join: an earlier member with the same owner, or this pod's addition. */
  lemma MemberAfterJoin(cfg: Config, w: World, p: nat, c: nat, r: Site, env: Env, v: Member) returns (m: Member)
    requires ValidConfig(cfg) && Shaped(cfg, w) && p < |cfg| && c in w.clusters && ListOK(cfg, w, c)
    requires ListKept(SiteOf(w, p, c), r, cfg[p], env) && v in r.members && env.newID !in w.ids
    requires multiset(env.arrange(cfg[p].URLs())) == multiset(cfg[p].URLs())
    ensures exists q :: 0 <= q < |cfg| && Owns(cfg[q], v)
    ensures v.id == env.newID ==> forall q | 0 <= q < |cfg| :: IsSelf(v, cfg[q].Me()) <==> q == p
    ensures v.id != env.newID ==> m in w.clusters[c] && m.id == v.id && (!m.isLearner ==> !v.isLearner)
    ensures v.id != env.newID ==> forall q | 0 <= q < |cfg| :: IsSelf(v, cfg[q].Me()) <==> IsSelf(m, cfg[q].Me())
  {
    if Derived(v, w.clusters[c]) {
      m := if v in w.clusters[c] then v else v.(isLearner := true);
      var o :| 0 <= o < |cfg| && Owns(cfg[o], m);
      assert Owns(cfg[o], v);
    } else {
      m := v;
      assert Owns(cfg[p], v);
      forall q | 0 <= q < |cfg| ensures IsSelf(v, cfg[q].Me()) <==> q == p {
        OwnerRecognises(cfg, p, q, v);
      }
    }
  }

  ghost predicate Joined(cfg: Config, w: World, p: nat, c: nat, r: Site, env: Env, w': World) {
    && ValidConfig(cfg) && Sane(cfg, w) && p < |cfg| && c in w.clusters
    && ListKept(SiteOf(w, p, c), r, cfg[p], env) && env.newID !in w.ids && env.newID != 0
    && multiset(env.arrange(cfg[p].URLs())) == multiset(cfg[p].URLs())
    && w' == AfterJoin(w, p, r, env) && r.cluster == c
    && Shaped(cfg, w')
  }

  /** The same from a join in a world in order. */
  lemma JoinedMember(cfg: Config, w: World, p: nat, c: nat, r: Site, env: Env, w': World, v: Member) returns (m: Member)
    requires Joined(cfg, w, p, c, r, env, w') && v in r.members
    ensures exists q :: 0 <= q < |cfg| && Owns(cfg[q], v)
    ensures v.id == env.newID ==> forall q | 0 <= q < |cfg| :: IsSelf(v, cfg[q].Me()) <==> q == p
    ensures v.id != env.newID ==> m in w.clusters[c] && m.id == v.id && (!m.isLearner ==> !v.isLearner)
    ensures v.id != env.newID ==> forall q | 0 <= q < |cfg| :: IsSelf(v, cfg[q].Me()) <==> IsSelf(m, cfg[q].Me())
  {
    hide IsSelf, Owns, ListKept, ListOK, DiskOK, ValidConfig, Named;
    m := MemberAfterJoin(cfg, w, p, c, r, env, v);
  }

  lemma JoinKeepsTidy(cfg: Config, w: World, p: nat, c: nat, r: Site, env: Env, w': World, q: nat)
    requires Joined(cfg, w, p, c, r, env, w') && q < |cfg|
    ensures Tidy(r.members, cfg[q].Me())
  {
    assert Tidy(r.members, cfg[p].Me());
    assert Tidy(w.clusters[c], cfg[q].Me()) by {
      assert ListOK(cfg, w, c);
    }
    hide Joined, IsSelf;
    forall x, y | x in r.members && y in r.members && IsSelf(x, cfg[q].Me()) && IsSelf(y, cfg[q].Me())
      ensures x.id == y.id
    {
      var m := JoinedMember(cfg, w, p, c, r, env, w', x);
      var n := JoinedMember(cfg, w, p, c, r, env, w', y);
    }
  }

  lemma JoinKeepsOwnList(cfg: Config, w: World, p: nat, c: nat, r: Site, env: Env, w': World)
    requires Joined(cfg, w, p, c, r, env, w')
    ensures ListOK(cfg, w', c)
  {
    hide IsSelf, Owns, Tidy, ListKept, DiskOK, ValidConfig;
    assert Shaped(cfg, w) && ListOK(cfg, w, c) && w'.clusters[c] == r.members;
    assert w'.ids == w.ids + {env.newID} && w'.founder == w.founder && env.newID !in w.ids;
    forall q | 0 <= q < |cfg| ensures Tidy(r.members, cfg[q].Me()) {
      JoinKeepsTidy(cfg, w, p, c, r, env, w', q);
    }
    hide Joined;
    forall v | v in r.members
      ensures v.id in w'.ids && (v.id == w.founder[c] ==> !v.isLearner)
      ensures exists q :: 0 <= q < |cfg| && Owns(cfg[q], v)
    {
      var m := JoinedMember(cfg, w, p, c, r, env, w', v);
    }
  }

  lemma JoinKeepsLists(cfg: Config, w: World, p: nat, c: nat, r: Site, env: Env, w': World)
    requires Joined(cfg, w, p, c, r, env, w')
    ensures forall c' | c' in w'.clusters :: ListOK(cfg, w', c')
  {
    hide IsSelf, Owns, ListKept, ListOK, DiskOK, ValidConfig;
    JoinKeepsOwnList(cfg, w, p, c, r, env, w');
    forall c' | c' in w'.clusters && c' != c ensures ListOK(cfg, w', c') {
      ListStays(cfg, w, w', c');
    }
  }

  /** What a join changes of a pod's disk and child: nothing of another pod's, and its own as the pass left them. */
  lemma JoinedWorld(cfg: Config, w: World, p: nat, c: nat, r: Site, env: Env, w': World, q: nat)
    requires Joined(cfg, w, p, c, r, env, w') && q < |cfg|
    ensures Shaped(cfg, w) && Shaped(cfg, w') && DiskOK(cfg, w, q) && c in w.clusters
    ensures w'.clusters == w.clusters[c := r.members] && w'.ids == w.ids + {env.newID}
    ensures w'.disks[q] == w.disks[q] || w'.disks[q].None? || w'.disks[q] == Some(Data(c, env.newID))
    ensures w'.children[q].None? || w'.children[q] == w'.disks[q]
  {
    hide ListOK, ValidConfig, IsSelf, ListKept;
    assert DiskOK(cfg, w, q) && (w.children[q].Some? ==> w.children[q] == w.disks[q]);
    assert w'.children == w.children[p := r.child] && w'.disks == w.disks[p := r.disk];
    PassDisk(SiteOf(w, p, c), r, cfg[p], env);
    hide DiskOK, Sane;
  }

  lemma PassDisk(s: Site, r: Site, pod: Pod, env: Env)
    requires ListKept(s, r, pod, env)
    ensures r.disk.None? || r.disk == s.disk || r.disk == Some(Data(s.cluster, env.newID))
    ensures r.child.Some? ==> r.child == r.disk
  {
  }

  lemma JoinKeepsDisks(cfg: Config, w: World, p: nat, c: nat, r: Site, env: Env, w': World, q: nat)
    requires Joined(cfg, w, p, c, r, env, w') && q < |cfg|
    ensures DiskOK(cfg, w', q)
  {
    hide Joined, IsSelf;
    JoinedWorld(cfg, w, p, c, r, env, w', q);
    forall v | v in r.members && w'.disks[q].Some? && w'.disks[q].value == Data(c, v.id)
      ensures IsSelf(v, cfg[q].Me())
    {
      JoinedDisk(cfg, w, p, c, r, env, w', q, v);
    }
  }

  /** The data a pod has after a join is that of its own member, if the list still has it. */
  lemma JoinedDisk(cfg: Config, w: World, p: nat, c: nat, r: Site, env: Env, w': World, q: nat, v: Member)
    requires Joined(cfg, w, p, c, r, env, w') && q < |cfg| && v in r.members && w'.disks[q] == Some(Data(c, v.id))
    ensures IsSelf(v, cfg[q].Me())
  {
    assert DiskOK(cfg, w, q) && (q != p ==> w'.disks[q] == w.disks[q]) && env.newID !in w.ids;
    assert w'.disks[p] == w.disks[p] || w'.disks[p].None? || w'.disks[p] == Some(Data(c, env.newID));
    hide Joined, IsSelf, Owns;
    var m := JoinedMember(cfg, w, p, c, r, env, w', v);
  }

  lemma JoinedSane(cfg: Config, w: World, p: nat, c: nat, r: Site, env: Env, w': World)
    requires Joined(cfg, w, p, c, r, env, w')
    ensures Sane(cfg, w')
  {
    hide ListOK, DiskOK, ListKept, IsSelf;
    JoinKeepsLists(cfg, w, p, c, r, env, w');
    forall q | 0 <= q < |cfg| ensures DiskOK(cfg, w', q) {
      JoinKeepsDisks(cfg, w, p, c, r, env, w', q);
    }
  }

  lemma OrderlySite(cfg: Config, w: World, p: nat, c: nat, env: Env)
    requires ValidConfig(cfg) && Sane(cfg, w) && p < |cfg| && c in w.clusters
    requires env.newID !in w.ids && env.newID != 0
    requires multiset(env.arrange(cfg[p].URLs())) == multiset(cfg[p].URLs())
    ensures Orderly(SiteOf(w, p, c), cfg[p], env)
  {
    assert ListOK(cfg, w, c);
  }

  lemma JoinStaysShaped(cfg: Config, w: World, p: nat, c: nat, r: Site, env: Env)
    requires Shaped(cfg, w) && p < |cfg| && c in w.clusters && r.cluster == c && DiskOK(cfg, w, p)
    requires r.disk.None? || r.disk == w.disks[p] || r.disk == Some(Data(c, env.newID))
    requires r.child.Some? ==> r.child == r.disk
    ensures Shaped(cfg, AfterJoin(w, p, r, env))
  {
    hide IsSelf;
  }

  lemma JoinIsJoined(cfg: Config, w: World, a: Action, w': World)
    requires ValidConfig(cfg) && Sane(cfg, w) && Possible(cfg, w, a) && a.Iterate? && DecisionOf(a) == JoinReady
    requires w' == Next(cfg, w, a)
    ensures Joined(cfg, w, a.p, w.children[a.via].value.cluster, PassOf(cfg, w, a).site, a.env, w')
  {
    var c, r := w.children[a.via].value.cluster, PassOf(cfg, w, a).site;
    assert Shaped(cfg, w) && DiskOK(cfg, w, a.p) && w' == AfterJoin(w, a.p, r, a.env);
    hide JoinPass, InitPass, Sane, ValidConfig, Orderly, Tidy, Derived, Added, DiskOK, AfterJoin;
    OrderlySite(cfg, w, a.p, c, a.env);
    AnyJoinKeeps(SiteOf(w, a.p, c), cfg[a.p], a.dead, a.env);
    JoinStaysShaped(cfg, w, a.p, c, r, a.env);
  }

  ghost predicate Founded(cfg: Config, w: World, p: nat, c: nat, env: Env, w': World) {
    && ValidConfig(cfg) && Sane(cfg, w) && p < |cfg| && c !in w.clusters && w.children[p].None?
    && env.newID !in w.ids && env.newID != 0
    && multiset(env.arrange(cfg[p].URLs())) == multiset(cfg[p].URLs())
    && w' == World(w.clusters[c := [FounderMember(cfg[p], env)]], w.founder[c := env.newID], w.ids + {env.newID},
                   w.disks[p := Some(Data(c, env.newID))], w.children[p := Some(Data(c, env.newID))])
    && Shaped(cfg, w')
  }

  lemma FounderIsSelf(cfg: Config, p: nat, env: Env)
    requires ValidConfig(cfg) && p < |cfg| && multiset(env.arrange(cfg[p].URLs())) == multiset(cfg[p].URLs())
    ensures forall q | 0 <= q < |cfg| :: IsSelf(FounderMember(cfg[p], env), cfg[q].Me()) <==> q == p
    ensures Owns(cfg[p], FounderMember(cfg[p], env))
  {
    forall q | 0 <= q < |cfg| ensures IsSelf(FounderMember(cfg[p], env), cfg[q].Me()) <==> q == p {
      OwnerRecognises(cfg, p, q, FounderMember(cfg[p], env));
    }
  }

  lemma FoundedList(cfg: Config, w: World, p: nat, c: nat, env: Env, w': World)
    requires Founded(cfg, w, p, c, env, w')
    ensures ListOK(cfg, w', c)
  {
    hide Sane, IsSelf, Owns, ValidConfig;
    var f := FounderMember(cfg[p], env);
    assert w'.clusters[c] == [f] && f.id == env.newID && w'.founder[c] == env.newID && env.newID in w'.ids;
    FounderIsSelf(cfg, p, env);
    hide Founded;
  }

  lemma FoundedDisk(cfg: Config, w: World, p: nat, c: nat, env: Env, w': World)
    requires Founded(cfg, w, p, c, env, w')
    ensures DiskOK(cfg, w', p)
  {
    FounderIsSelf(cfg, p, env);
    hide Sane, IsSelf, Owns, ValidConfig;
    assert w'.clusters[c] == [FounderMember(cfg[p], env)];
  }

  lemma FoundedSane(cfg: Config, w: World, p: nat, c: nat, env: Env, w': World)
    requires Founded(cfg, w, p, c, env, w')
    ensures Sane(cfg, w')
  {
    hide IsSelf, Owns, ListOK, DiskOK, ValidConfig;
    FoundedList(cfg, w, p, c, env, w');
    FoundedDisk(cfg, w, p, c, env, w');
    forall c' | c' in w'.clusters && c' != c ensures ListOK(cfg, w', c') {
      ListStays(cfg, w, w', c');
    }
    forall q | 0 <= q < |cfg| && q != p ensures DiskOK(cfg, w', q) {
      FoundedOtherDisk(cfg, w, p, c, env, w', q);
    }
  }

  lemma FoundedOtherDisk(cfg: Config, w: World, p: nat, c: nat, env: Env, w': World, q: nat)
    requires Founded(cfg, w, p, c, env, w') && q < |cfg| && q != p
    ensures DiskOK(cfg, w', q)
  {
    assert DiskOK(cfg, w, q);
    hide IsSelf, Owns, ListOK, ValidConfig;
    DiskStays(cfg, w, w', q);
  }

  /** Losing a disk, as a founding pass does whose etcd cannot be started. */
  lemma WipeStaysSane(cfg: Config, w: World, p: nat)
    requires Sane(cfg, w) && p < |cfg| && w.children[p].None?
    ensures Sane(cfg, w.(disks := w.disks[p := None]))
  {
    hide IsSelf, Owns, Tidy;
    var w' := w.(disks := w.disks[p := None]);
    forall c | c in w'.clusters ensures ListOK(cfg, w', c) {
      assert ListOK(cfg, w, c);
    }
    forall q | 0 <= q < |cfg| ensures DiskOK(cfg, w', q) {
      assert DiskOK(cfg, w, q);
    }
  }

  lemma FoundingIsFounded(cfg: Config, w: World, a: Action, w': World)
    requires ValidConfig(cfg) && Sane(cfg, w) && Possible(cfg, w, a) && w' == Next(cfg, w, a)
    requires a.Iterate? && DecisionOf(a) == FoundNew
    ensures if a.env.start then Founded(cfg, w, a.p, a.newCluster, a.env, w') else w' == w.(disks := w.disks[a.p := None])
  {
    hide ListOK, DiskOK, ValidConfig, Decide;
  }

  /** Member lists and disks stay in order through every step, also when discovery misses running etcds. */
  lemma LossyStepStaysSane(cfg: Config, w: World, a: Action, w': World)
    requires ValidConfig(cfg) && Sane(cfg, w) && LossyStep(cfg, w, a, w')
    ensures Sane(cfg, w')
  {
    hide ListOK, DiskOK, ValidConfig;
    match a
    case Iterate(_, _, _, _, _, _) =>
      if DecisionOf(a) == JoinReady {
        JoinIsJoined(cfg, w, a, w');
        hide JoinPass;
        JoinedSane(cfg, w, a.p, w.children[a.via].value.cluster, PassOf(cfg, w, a).site, a.env, w');
      } else if DecisionOf(a) == FoundNew {
        FoundingIsFounded(cfg, w, a, w');
        if a.env.start {
          FoundedSane(cfg, w, a.p, a.newCluster, a.env, w');
        } else {
          WipeStaysSane(cfg, w, a.p);
        }
      }
    case Exit(_, _) => ExitStaysSane(cfg, w, a, w');
    case Publish(p) => PublishStaysSane(cfg, w, p, w');
    case Evict(_, _) => EvictStaysSane(cfg, w, a, w');
  }
}
