/**
 * Faithful discovery: no running etcd is missed. Then all etcds are of one cluster, and no pod that this cluster
 * lists has other data than its listed member's.
 */
module OneCluster {
  import opened Base
  import opened Members
  import opened Joining
  import opened JoinFacts
  import opened Bootstrap

  ghost predicate Live(w: World, c: nat) {
    exists q :: 0 <= q < |w.children| && w.children[q].Some? && w.children[q].value.cluster == c
  }

  ghost predicate OneLive(w: World) {
    forall p, q | 0 <= p < |w.children| && 0 <= q < |w.children| && w.children[p].Some? && w.children[q].Some? ::
      w.children[p].value.cluster == w.children[q].value.cluster
  }

  /** No pod that the live cluster lists has data other than that of its listed member. */
  ghost predicate NoStaleData(cfg: Config, w: World)
    requires Shaped(cfg, w)
  {
    forall c, p | c in w.clusters && Live(w, c) && 0 <= p < |cfg| :: DataFits(SiteOf(w, p, c), cfg[p].Me())
  }

  ghost predicate Inv(cfg: Config, w: World) {
    Sane(cfg, w) && OneLive(w) && NoStaleData(cfg, w)
  }

  lemma InitialInv(cfg: Config, w: World)
    requires Initial(cfg, w)
    ensures Inv(cfg, w)
  {
  }

  // ---------------------------------------------------------------- one lemma per kind of step

  lemma ExitKeeps(cfg: Config, w: World, a: Action, w': World)
    requires Inv(cfg, w) && Possible(cfg, w, a) && a.Exit? && w' == Next(cfg, w, a)
    ensures Inv(cfg, w')
  {
    hide ListOK, DiskOK, IsSelf;
    ExitStaysSane(cfg, w, a, w');
    assert Shaped(cfg, w);
    hide Sane;
    forall c, p | c in w'.clusters && Live(w', c) && 0 <= p < |cfg| ensures DataFits(SiteOf(w', p, c), cfg[p].Me()) {
      var q :| 0 <= q < |w'.children| && w'.children[q].Some? && w'.children[q].value.cluster == c;
      assert w.children[q] == w'.children[q];
      assert Live(w, c);
      assert DataFits(SiteOf(w, p, c), cfg[p].Me());
    }
  }

  lemma EvictKeeps(cfg: Config, w: World, a: Action, w': World)
    requires Inv(cfg, w) && Possible(cfg, w, a) && a.Evict? && w' == Next(cfg, w, a)
    ensures Inv(cfg, w')
  {
    hide ListOK, DiskOK, IsSelf;
    EvictStaysSane(cfg, w, a, w');
    assert Shaped(cfg, w);
    hide Sane;
    forall c, p | c in w'.clusters && Live(w', c) && 0 <= p < |cfg| ensures DataFits(SiteOf(w', p, c), cfg[p].Me()) {
      assert Live(w, c);
      assert DataFits(SiteOf(w, p, c), cfg[p].Me());
    }
  }

  lemma PublishKeepsData(cfg: Config, w: World, p: nat, w': World, c: nat, q: nat)
    requires Published(cfg, w, p, w') && Shaped(cfg, w') && c in w.clusters && q < |cfg|
    requires DataFits(SiteOf(w, q, c), cfg[q].Me())
    ensures DataFits(SiteOf(w', q, c), cfg[q].Me())
  {
    if c == w.children[p].value.cluster {
      forall v | v in w'.clusters[c] && IsSelf(v, cfg[q].Me()) && w.disks[q].Some?
        ensures w.disks[q] == Some(Data(c, v.id))
      {
        var m := NamingKeepsOwners(cfg, w, p, v);
      }
    }
  }

  lemma PublishKeeps(cfg: Config, w: World, p: nat, w': World)
    requires ValidConfig(cfg) && Inv(cfg, w) && Published(cfg, w, p, w') && Shaped(cfg, w')
    ensures Inv(cfg, w')
  {
    hide ListOK, DiskOK, Named, ValidConfig;
    PublishStaysSane(cfg, w, p, w');
    assert Shaped(cfg, w) && w'.children == w.children && w'.clusters.Keys == w.clusters.Keys;
    hide Sane, DataFits, Published;
    forall c, q | c in w'.clusters && Live(w', c) && 0 <= q < |cfg| ensures DataFits(SiteOf(w', q, c), cfg[q].Me()) {
      assert Live(w, c);
      PublishKeepsData(cfg, w, p, w', c, q);
    }
  }

  /** A join of the live cluster whose data fits. */
  ghost predicate JoinedLive(cfg: Config, w: World, p: nat, c: nat, r: Site, env: Env, w': World) {
    && Joined(cfg, w, p, c, r, env, w') && Inv(cfg, w) && Live(w, c) && Kept(SiteOf(w, p, c), r, cfg[p], env)
  }

  lemma JoinKeepsData(cfg: Config, w: World, p: nat, c: nat, r: Site, env: Env, w': World, q: nat)
    requires JoinedLive(cfg, w, p, c, r, env, w') && q < |cfg|
    ensures DataFits(SiteOf(w', q, c), cfg[q].Me())
  {
    assert DataFits(SiteOf(w, q, c), cfg[q].Me()) && w'.clusters[c] == r.members;
    assert DataFits(r, cfg[p].Me()) && w'.disks == w.disks[p := r.disk] && r.cluster == c;
    hide IsSelf, Inv, ListKept, Joined;
    if q != p {
      forall v | v in r.members && IsSelf(v, cfg[q].Me()) && w.disks[q].Some?
        ensures w.disks[q] == Some(Data(c, v.id))
      {
        var m := JoinedMember(cfg, w, p, c, r, env, w', v);
      }
    }
  }

  lemma JoinKeepsLive(cfg: Config, w: World, p: nat, c: nat, r: Site, env: Env, w': World)
    requires JoinedLive(cfg, w, p, c, r, env, w')
    ensures forall q | 0 <= q < |cfg| && w'.children[q].Some? :: w'.children[q].value.cluster == c
    ensures OneLive(w')
  {
    hide IsSelf, ListOK, DiskOK, NoStaleData, ValidConfig, DataFits, Tidy, Derived, Added;
    assert OneLive(w) && w'.children == w.children[p := r.child] && |w.children| == |cfg|;
    assert r.child.Some? ==> r.child.value.cluster == c;
    hide Inv, Joined, Kept;
    var l :| 0 <= l < |w.children| && w.children[l].Some? && w.children[l].value.cluster == c;
    forall q | 0 <= q < |cfg| && w'.children[q].Some? ensures w'.children[q].value.cluster == c {
      assert q != p ==> w'.children[q] == w.children[q];
    }
  }

  /** Where every running etcd is of cluster c and all data fits c, there is one live cluster and no stale data. */
  lemma OnlyLiveCluster(cfg: Config, w: World, c: nat)
    requires Sane(cfg, w) && c in w.clusters
    requires forall q | 0 <= q < |cfg| && w.children[q].Some? :: w.children[q].value.cluster == c
    requires forall q | 0 <= q < |cfg| :: DataFits(SiteOf(w, q, c), cfg[q].Me())
    ensures Inv(cfg, w)
  {
    assert Shaped(cfg, w);
    hide Sane, DataFits;
  }

  lemma JoinedInv(cfg: Config, w: World, p: nat, c: nat, r: Site, env: Env, w': World)
    requires JoinedLive(cfg, w, p, c, r, env, w')
    ensures Inv(cfg, w')
  {
    assert c in w'.clusters && Shaped(cfg, w');
    hide Inv, Sane, DataFits, Kept, Joined;
    JoinedSane(cfg, w, p, c, r, env, w');
    JoinKeepsLive(cfg, w, p, c, r, env, w');
    forall q | 0 <= q < |cfg| ensures DataFits(SiteOf(w', q, c), cfg[q].Me()) {
      JoinKeepsData(cfg, w, p, c, r, env, w', q);
    }
    OnlyLiveCluster(cfg, w', c);
  }

  lemma JoinIsKept(cfg: Config, w: World, a: Action)
    requires ValidConfig(cfg) && Inv(cfg, w) && Possible(cfg, w, a) && a.Iterate? && DecisionOf(a) == JoinReady
    ensures Live(w, w.children[a.via].value.cluster)
    ensures Kept(SiteOf(w, a.p, w.children[a.via].value.cluster), PassOf(cfg, w, a).site, cfg[a.p], a.env)
    ensures var r, c := PassOf(cfg, w, a).site, w.children[a.via].value.cluster;
      r.cluster == c && (r.child.Some? ==> r.child.value.cluster == c)
  {
    var c := w.children[a.via].value.cluster;
    assert Shaped(cfg, w) && Live(w, c) && DataFits(SiteOf(w, a.p, c), cfg[a.p].Me());
    hide JoinPass, InitPass, Orderly, Inv, Live, ValidConfig, Tidy, DataFits, Derived, Added;
    OrderlySite(cfg, w, a.p, c, a.env);
    JoinKeeps(SiteOf(w, a.p, c), cfg[a.p], a.dead, a.env);
  }

  lemma JoinKeepsInv(cfg: Config, w: World, a: Action, w': World)
    requires ValidConfig(cfg) && Inv(cfg, w) && Possible(cfg, w, a) && a.Iterate? && DecisionOf(a) == JoinReady
    requires w' == Next(cfg, w, a)
    ensures Inv(cfg, w')
  {
    var c, r := w.children[a.via].value.cluster, PassOf(cfg, w, a).site;
    JoinIsJoined(cfg, w, a, w');
    JoinIsKept(cfg, w, a);
    hide JoinPass, InitPass, Joined, PassOf;
    JoinedInv(cfg, w, a.p, c, r, a.env, w');
  }

  lemma FoundingSeesNobody(cfg: Config, w: World, a: Action)
    requires Shaped(cfg, w) && Possible(cfg, w, a) && Faithful(w, a) && a.Iterate? && DecisionOf(a) == FoundNew
    ensures a.p == 0 && forall q | 0 <= q < |cfg| :: w.children[q].None?
  {
    forall q | 0 <= q < |cfg| ensures w.children[q].None? {
      assert a.seen[q] in a.seen;
    }
  }

  lemma FoundedData(cfg: Config, w: World, p: nat, c: nat, env: Env, w': World)
    requires Founded(cfg, w, p, c, env, w')
    ensures forall q | 0 <= q < |cfg| :: DataFits(SiteOf(w', q, c), cfg[q].Me())
  {
    FounderIsSelf(cfg, p, env);
    hide Sane, IsSelf, Owns, ValidConfig;
    var f := FounderMember(cfg[p], env);
    assert w'.clusters[c] == [f] && w'.disks[p] == Some(Data(c, f.id));
    forall q | 0 <= q < |cfg| ensures DataFits(SiteOf(w', q, c), cfg[q].Me()) {
      assert IsSelf(f, cfg[q].Me()) <==> q == p;
    }
  }

  lemma FoundedInv(cfg: Config, w: World, p: nat, c: nat, env: Env, w': World)
    requires Founded(cfg, w, p, c, env, w') && forall q | 0 <= q < |cfg| :: w.children[q].None?
    ensures Inv(cfg, w')
  {
    assert Shaped(cfg, w) && w'.children == w.children[p := Some(Data(c, env.newID))] && |w.children| == |cfg|;
    hide Sane, DataFits, Founded;
    FoundedSane(cfg, w, p, c, env, w');
    FoundedData(cfg, w, p, c, env, w');
    OnlyLiveCluster(cfg, w', c);
  }

  lemma WipeKeeps(cfg: Config, w: World, p: nat)
    requires Inv(cfg, w) && p < |cfg| && w.children[p].None?
    ensures Inv(cfg, w.(disks := w.disks[p := None]))
  {
    hide ListOK, DiskOK, IsSelf;
    WipeStaysSane(cfg, w, p);
    var w' := w.(disks := w.disks[p := None]);
    assert Shaped(cfg, w);
    hide Sane;
    forall c, q | c in w'.clusters && Live(w', c) && 0 <= q < |cfg| ensures DataFits(SiteOf(w', q, c), cfg[q].Me()) {
      assert Live(w, c);
      assert DataFits(SiteOf(w, q, c), cfg[q].Me());
    }
  }

  lemma FoundingKeepsInv(cfg: Config, w: World, a: Action, w': World)
    requires ValidConfig(cfg) && Inv(cfg, w) && Step(cfg, w, a, w')
    requires a.Iterate? && DecisionOf(a) == FoundNew
    ensures Inv(cfg, w')
  {
    FoundingSeesNobody(cfg, w, a);
    FoundingIsFounded(cfg, w, a, w');
    assert w.children[a.p].None?;
    hide Sane, Next, Founded, ValidConfig, OneLive, NoStaleData;
    if a.env.start {
      FoundedInv(cfg, w, a.p, a.newCluster, a.env, w');
    } else {
      WipeKeeps(cfg, w, a.p);
    }
  }

  /** Every step with faithful discovery keeps the invariant. */
  lemma StepKeeps(cfg: Config, w: World, a: Action, w': World)
    requires ValidConfig(cfg) && Inv(cfg, w) && Step(cfg, w, a, w')
    ensures Inv(cfg, w')
  {
    hide ListOK, DiskOK, OneLive, NoStaleData, ValidConfig, Faithful;
    match a
    case Iterate(_, _, _, _, _, _) =>
      if DecisionOf(a) == JoinReady {
        JoinKeepsInv(cfg, w, a, w');
      } else if DecisionOf(a) == FoundNew {
        FoundingKeepsInv(cfg, w, a, w');
      }
    case Exit(_, _) => ExitKeeps(cfg, w, a, w');
    case Publish(p) => PublishKeeps(cfg, w, p, w');
    case Evict(_, _) => EvictKeeps(cfg, w, a, w');
  }
}
