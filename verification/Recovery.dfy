/**
 * Discovery that can miss a running etcd. Then pod 0 may found a second cluster beside a live one; this module says
 * exactly when its next successful join brings it back, and shows a run in which it does not come back.
 */
module Recovery {
  import opened Base
  import opened Members
  import opened Joining
  import opened JoinFacts
  import opened Bootstrap
  import opened Runs
  import opened InitialCluster
  import opened Detection
  import C = Checker

  ghost predicate IsLossyRun(cfg: Config, run: Run) {
    && ValidConfig(cfg)
    && |run.worlds| == |run.actions| + 1
    && Initial(cfg, run.worlds[0])
    && forall k | 0 <= k < |run.actions| :: LossyStep(cfg, run.worlds[k], run.actions[k], run.worlds[k + 1])
  }

  lemma FreshPassLands(s: Site, pod: Pod, voting: nat, env: Env)
    requires s.disk.None? && AddMemberAndStart(s, pod, voting, env).outcome == Started
    ensures var r := AddMemberAndStart(s, pod, voting, env).site;
      r.child == r.disk == Some(Data(s.cluster, env.newID))
  {
    hide AddReply, BuildClusterConfig, Promotes, FirstAccepted;
  }

  /**
   * Where a successful join ends, for every member list, disk and answer: in the cluster it joined, unless the list
   * has an entry this pod recognises and the pod holds another cluster's data.
   */
  lemma JoinLandsInTarget(s: Site, pod: Pod, dead: set<string>, env: Env)
    requires JoinPass(s, pod, dead, env).outcome == Started
    ensures var r := JoinPass(s, pod, dead, env).site;
      && r.child.Some?
      && (r.child.value.cluster == s.cluster
          <==> MyID(s.members, pod.Me()) == 0 || s.disk.None? || s.disk.value.cluster == s.cluster)
  {
    hide WithRole, AddMemberAndStart, MyID, MyLearner, Promotes, FirstAccepted;
    var scan := ScanOf(s.members, pod.Me(), dead);
    var purged := PurgeAll(s, WithRole(Doomed, s.members, pod.Me(), dead), env);
    if scan.myID == 0 {
      FreshPassLands(purged.(disk := None), pod, scan.voting, env);
    } else if s.disk.None? {
      FreshPassLands(RemoveMember(purged, scan.myID, env), pod, scan.voting, env);
    }
  }

  /** With no recognised entry in the surviving cluster, the split data is wiped and replaced by a new member's. */
  lemma RejoinWipesSplitData(s: Site, pod: Pod, dead: set<string>, env: Env)
    requires MyID(s.members, pod.Me()) == 0 && JoinPass(s, pod, dead, env).outcome == Started
    ensures var r := JoinPass(s, pod, dead, env).site; r.child == r.disk == Some(Data(s.cluster, env.newID))
  {
    hide WithRole, AddMemberAndStart, MyID, MyLearner;
    var purged := PurgeAll(s, WithRole(Doomed, s.members, pod.Me(), dead), env);
    FreshPassLands(purged.(disk := None), pod, ScanOf(s.members, pod.Me(), dead).voting, env);
  }

  // ---------------------------------------------------------------- from an alarm to the next successful join

  lemma {:induction false} SaneInLossyRuns(cfg: Config, run: Run, k: nat)
    requires IsLossyRun(cfg, run) && k < |run.worlds|
    ensures Sane(cfg, run.worlds[k])
  {
    hide Sane, LossyStep, ValidConfig, Initial;
    if k == 0 {
      InitialIsSane(cfg, run.worlds[0]);
    } else {
      SaneInLossyRuns(cfg, run, k - 1);
      LossyStepStaysSane(cfg, run.worlds[k - 1], run.actions[k - 1], run.worlds[k]);
    }
  }

  lemma InitialIsSane(cfg: Config, w: World)
    requires Initial(cfg, w)
    ensures Sane(cfg, w)
  {
  }

  ghost predicate ListedIn(cfg: Config, w: World, p: nat, c: nat)
    requires p < |cfg| && c in w.clusters
  {
    exists m :: m in w.clusters[c] && IsSelf(m, cfg[p].Me())
  }

  /** Pod p has no entry in cluster c, or no data, or data of c: then a start after joining c is a start in c. */
  ghost predicate CanLand(cfg: Config, w: World, p: nat, c: nat)
    requires Shaped(cfg, w) && p < |cfg|
  {
    c in w.clusters && (!ListedIn(cfg, w, p, c) || w.disks[p].None? || w.disks[p].value.cluster == c)
  }

  /** The step gives pod p new data, of another cluster than c. */
  ghost predicate Detour(w: World, w': World, p: nat, c: nat) {
    && p < |w.disks| && p < |w'.disks|
    && w'.disks[p].Some? && w'.disks[p] != w.disks[p] && w'.disks[p].value.cluster != c
  }

  lemma FreshDisk(s: Site, pod: Pod, voting: nat, env: Env)
    requires s.disk.None?
    ensures var d := AddMemberAndStart(s, pod, voting, env).site.disk; d.None? || d == Some(Data(s.cluster, env.newID))
  {
    hide AddReply, BuildClusterConfig, Promotes, FirstAccepted;
  }

  /** A pod without an entry keeps no other data through a pass that reads the list, whatever becomes of the pass. */
  lemma UnlistedIsWiped(s: Site, pod: Pod, dead: set<string>, env: Env)
    requires env.list && MyID(s.members, pod.Me()) == 0
    ensures var d := JoinPass(s, pod, dead, env).site.disk; d.None? || d == Some(Data(s.cluster, env.newID))
  {
    hide WithRole, AddMemberAndStart, MyID, MyLearner;
    var purged := PurgeAll(s, WithRole(Doomed, s.members, pod.Me(), dead), env);
    FreshDisk(purged.(disk := None), pod, ScanOf(s.members, pod.Me(), dead).voting, env);
  }

  lemma OwnJoinStaysUnlisted(cfg: Config, w: World, a: Action, w': World, c: nat)
    requires LossyStep(cfg, w, a, w') && a.Iterate? && DecisionOf(a) == JoinReady
    requires c == w.children[a.via].value.cluster && !ListedIn(cfg, w, a.p, c)
    requires w'.disks[a.p].Some? && w'.disks[a.p].value.cluster != c
    ensures c in w'.clusters && w'.clusters[c] == w.clusters[c]
  {
    var s := SiteOf(w, a.p, c);
    hide IsSelf, MyLearner, WithRole;
    assert MyID(s.members, cfg[a.p].Me()) == 0;
    if a.env.list {
      hide JoinPass;
      UnlistedIsWiped(s, cfg[a.p], a.dead, a.env);
    }
  }

  /** Nobody else's step makes a pod listed that was not. */
  lemma OthersDoNotList(cfg: Config, w: World, a: Action, w': World, p: nat, c: nat)
    requires ValidConfig(cfg) && Sane(cfg, w) && LossyStep(cfg, w, a, w') && p < |cfg| && c in w.clusters
    requires !ListedIn(cfg, w, p, c) && !(a.Iterate? && a.p == p)
    ensures c in w'.clusters && !ListedIn(cfg, w', p, c)
  {
    hide IsSelf, ValidConfig, ListOK, DiskOK, Named, JoinPass;
    match a
    case Iterate(_, _, _, _, _, _) =>
      if DecisionOf(a) == JoinReady {
        var d, r := w.children[a.via].value.cluster, PassOf(cfg, w, a).site;
        JoinIsJoined(cfg, w, a, w');
        assert w'.clusters == w.clusters[d := r.members];
        if d == c {
          OtherJoinDoesNotList(cfg, w, a.p, c, r, a.env, w', p);
        }
      }
    case Exit(_, _) =>
    case Publish(q) =>
      var d := w.children[q].value;
      if d.cluster == c {
        forall v | v in w'.clusters[c] ensures !IsSelf(v, cfg[p].Me()) {
          var m := NamingKeepsOwners(cfg, w, q, v);
        }
      }
    case Evict(_, _) =>
  }

  lemma OtherJoinDoesNotList(cfg: Config, w: World, q: nat, c: nat, r: Site, env: Env, w': World, p: nat)
    requires Joined(cfg, w, q, c, r, env, w') && p < |cfg| && p != q && !ListedIn(cfg, w, p, c)
    ensures c in w'.clusters && !ListedIn(cfg, w', p, c)
  {
    assert w'.clusters[c] == r.members;
    hide Joined, IsSelf;
    forall v | v in r.members ensures !IsSelf(v, cfg[p].Me()) {
      var m := JoinedMember(cfg, w, q, c, r, env, w', v);
    }
  }

  /** Whatever happens, and however its own attempts fail, a pod that can land in c still can, short of a detour. */
  lemma CanStillLand(cfg: Config, w: World, a: Action, w': World, p: nat, c: nat)
    requires ValidConfig(cfg) && Sane(cfg, w) && LossyStep(cfg, w, a, w') && Shaped(cfg, w') && p < |cfg|
    requires CanLand(cfg, w, p, c) && !Detour(w, w', p, c)
    ensures CanLand(cfg, w', p, c)
  {
    ClustersStayLossy(cfg, w, a, w');
    if w'.disks[p].Some? && w'.disks[p].value.cluster != c {
      assert w'.disks[p] == w.disks[p] && !ListedIn(cfg, w, p, c);
      hide Sane, ValidConfig, ListedIn;
      if a.Iterate? && a.p == p {
        OwnStepDoesNotList(cfg, w, a, w', c);
      } else {
        OthersDoNotList(cfg, w, a, w', p, c);
      }
    }
  }

  lemma OwnStepDoesNotList(cfg: Config, w: World, a: Action, w': World, c: nat)
    requires LossyStep(cfg, w, a, w') && a.Iterate? && c in w.clusters
    requires !ListedIn(cfg, w, a.p, c) && w'.disks[a.p].Some? && w'.disks[a.p].value.cluster != c
    ensures c in w'.clusters && !ListedIn(cfg, w', a.p, c)
  {
    hide IsSelf;
    if DecisionOf(a) == JoinReady {
      var d := w.children[a.via].value.cluster;
      if d == c {
        OwnJoinStaysUnlisted(cfg, w, a, w', c);
      } else {
        JoinClusterStays(SiteOf(w, a.p, d), cfg[a.p], a.dead, a.env);
        hide JoinPass;
      }
    }
  }

  lemma ClustersStayLossy(cfg: Config, w: World, a: Action, w': World)
    requires LossyStep(cfg, w, a, w')
    ensures w.clusters.Keys <= w'.clusters.Keys
  {
    hide JoinPass, InitPass;
  }

  /** A detour takes an iteration of the pod itself: a founding that starts, or a join of another cluster. */
  lemma WhatADetourIs(cfg: Config, w: World, a: Action, w': World, p: nat, c: nat)
    requires LossyStep(cfg, w, a, w') && p < |cfg| && Detour(w, w', p, c)
    ensures a.Iterate? && a.p == p
    ensures (DecisionOf(a) == FoundNew && a.env.start)
         || (DecisionOf(a) == JoinReady && w.children[a.via].value.cluster != c)
  {
    if a.Iterate? && a.p == p && DecisionOf(a) == JoinReady && w.children[a.via].value.cluster == c {
      JoinDiskIsOwn(SiteOf(w, p, c), cfg[p], a.dead, a.env);
      assert false;
    }
    hide JoinPass;
  }

  lemma JoinDiskIsOwn(s: Site, pod: Pod, dead: set<string>, env: Env)
    ensures var d := JoinPass(s, pod, dead, env).site.disk;
      d == s.disk || d.None? || d == Some(Data(s.cluster, env.newID))
  {
    hide WithRole, AddMemberAndStart, ScanOf, Promotes, FirstAccepted;
    var scan := ScanOf(s.members, pod.Me(), dead);
    var purged := PurgeAll(s, WithRole(Doomed, s.members, pod.Me(), dead), env);
    FreshDisk(purged.(disk := None), pod, scan.voting, env);
    if s.disk.None? {
      FreshDisk(RemoveMember(purged, scan.myID, env), pod, scan.voting, env);
    }
  }

  ghost predicate StartsIn(cfg: Config, w: World, a: Action, p: nat, c: nat)
    requires Shaped(cfg, w) && Possible(cfg, w, a)
  {
    && a.Iterate? && a.p == p && DecisionOf(a) == JoinReady && w.children[a.via].value.cluster == c
    && PassOf(cfg, w, a).outcome == Started
  }

  lemma StartLands(cfg: Config, w: World, a: Action, w': World, p: nat, c: nat)
    requires Sane(cfg, w) && LossyStep(cfg, w, a, w') && p < |cfg| && CanLand(cfg, w, p, c) && StartsIn(cfg, w, a, p, c)
    ensures w'.children[p].Some? && w'.children[p].value.cluster == c
  {
    var s := SiteOf(w, p, c);
    hide IsSelf, MyLearner, WithRole, JoinPass;
    JoinLandsInTarget(s, cfg[p], a.dead, a.env);
    assert !ListedIn(cfg, w, p, c) ==> MyID(s.members, cfg[p].Me()) == 0;
  }

  lemma {:induction false} CanLandThroughout(cfg: Config, run: Run, i: nat, j: nat, p: nat, c: nat)
    requires IsLossyRun(cfg, run) && i <= j < |run.worlds| && p < |cfg|
    requires Shaped(cfg, run.worlds[i]) && CanLand(cfg, run.worlds[i], p, c)
    requires forall k | i <= k < j :: !Detour(run.worlds[k], run.worlds[k + 1], p, c)
    ensures Shaped(cfg, run.worlds[j]) && CanLand(cfg, run.worlds[j], p, c)
  {
    SaneInLossyRuns(cfg, run, j);
    hide LossyStep, Detour, ListOK, DiskOK, Shaped, CanLand, Initial, ValidConfig;
    if i < j {
      CanLandThroughout(cfg, run, i, j - 1, p, c);
      SaneInLossyRuns(cfg, run, j - 1);
      CanStillLand(cfg, run.worlds[j - 1], run.actions[j - 1], run.worlds[j], p, c);
    }
  }

  /**
   * From any world in which the pod can land in c: through any failed attempts of its own and any steps of others,
   * each of its successful joins of c ends with its etcd running in c.
   */
  lemma JoinsLand(cfg: Config, run: Run, i: nat, j: nat, p: nat, c: nat)
    requires IsLossyRun(cfg, run) && i <= j < |run.actions| && p < |cfg|
    requires Shaped(cfg, run.worlds[i]) && CanLand(cfg, run.worlds[i], p, c)
    requires forall k | i <= k < j :: !Detour(run.worlds[k], run.worlds[k + 1], p, c)
    requires Shaped(cfg, run.worlds[j]) && Possible(cfg, run.worlds[j], run.actions[j])
    requires StartsIn(cfg, run.worlds[j], run.actions[j], p, c)
    ensures Sane(cfg, run.worlds[j + 1])
    ensures run.worlds[j + 1].children[p].Some? && run.worlds[j + 1].children[p].value.cluster == c
  {
    assert LossyStep(cfg, run.worlds[j], run.actions[j], run.worlds[j + 1]);
    CanLandThroughout(cfg, run, i, j, p, c);
    SaneInLossyRuns(cfg, run, j);
    SaneInLossyRuns(cfg, run, j + 1);
    hide IsLossyRun, Sane, LossyStep, Possible, StartsIn, CanLand, Detour;
    StartLands(cfg, run.worlds[j], run.actions[j], run.worlds[j + 1], p, c);
  }

  /** In world w the checker of pod p, whose etcd runs cluster d, compares with an etcd of cluster c and is answered. */
  ghost predicate SplitSeen(w: World, p: nat, q: nat, c: nat, e: string, view: C.View, myIPs: set<string>, port: string) {
    && p < |w.children| && q < |w.children| && w.children[p].Some? && w.children[q].Some?
    && w.children[q].value.cluster == c != w.children[p].value.cluster
    && c != 0 && w.children[p].value.cluster != 0
    && ViewOfWorld(w, p, view, myIPs, port)
    && e in C.Compared(view, myIPs, port) && view.answer(e).Some? && AnsweredBy(w, q, view.answer(e).value)
  }

  lemma SplitIsAlarmed(cfg: Config, w: World, p: nat, q: nat, c: nat, e: string, view: C.View, quiet: seq<C.Event>,
      myIPs: set<string>, port: string)
    requires Sane(cfg, w) && SplitSeen(w, p, q, c, e, view, myIPs, port)
    requires forall t | t in quiet :: C.Quiet(t, myIPs, port)
    ensures C.Alarms(quiet + [C.Tick(view)], myIPs, port)
  {
    hide ViewOfWorld, AnsweredBy, IsSelf, ListOK, C.Alarms, C.SeesSplit, C.SeesAgreement, C.Quiet, C.Compared;
    assert DiskOK(cfg, w, p) && w.children[p].value.member != 0;
    hide Sane, DiskOK;
    OtherClusterRaisesAlarm(w, p, q, e, view, myIPs, port);
    C.AlarmAfterQuiet(quiet, view, myIPs, port);
  }

  lemma EndedCanLand(cfg: Config, w: World, a: Action, w': World, p: nat, c: nat)
    requires LossyStep(cfg, w, a, w') && a.Exit? && a.p == p && c in w.clusters && !ListedIn(cfg, w, p, c)
    ensures Shaped(cfg, w') && w'.children[p].None? && CanLand(cfg, w', p, c)
  {
    hide IsSelf;
    assert w'.clusters == w.clusters;
  }

  /**
   * Recovery from a split, over any run with lossy probes. In world i pod p runs another cluster than c, its checker
   * is answered by an etcd of c, and c lists no entry of p. Then the checker raises the alarm; and once the etcd has
   * been ended, through any failures of p's attempts and any steps of others, p's next successful join of c ends with
   * p running in c, unless p takes a detour in between.
   */
  lemma RecoveryAfterSplit(cfg: Config, run: Run, i: nat, j: nat, p: nat, q: nat, c: nat, e: string, view: C.View,
      quiet: seq<C.Event>, myIPs: set<string>, port: string)
    requires IsLossyRun(cfg, run) && i < j < |run.actions| && p < |cfg|
    requires SplitSeen(run.worlds[i], p, q, c, e, view, myIPs, port)
    requires forall t | t in quiet :: C.Quiet(t, myIPs, port)
    requires c in run.worlds[i].clusters && !ListedIn(cfg, run.worlds[i], p, c)
    requires run.actions[i].Exit? && run.actions[i].p == p
    requires forall k | i < k < j :: !Detour(run.worlds[k], run.worlds[k + 1], p, c)
    requires Shaped(cfg, run.worlds[j]) && Possible(cfg, run.worlds[j], run.actions[j])
    requires StartsIn(cfg, run.worlds[j], run.actions[j], p, c)
    ensures C.Alarms(quiet + [C.Tick(view)], myIPs, port)
    ensures run.worlds[i + 1].children[p].None? && |run.worlds[j + 1].children| == |cfg|
    ensures run.worlds[j + 1].children[p].Some? && run.worlds[j + 1].children[p].value.cluster == c
  {
    assert LossyStep(cfg, run.worlds[i], run.actions[i], run.worlds[i + 1]);
    hide IsLossyRun, LossyStep, SplitSeen, ListedIn, CanLand, Sane, StartsIn, Possible, Detour, C.Alarms, C.Quiet;
    SaneInLossyRuns(cfg, run, i);
    SplitIsAlarmed(cfg, run.worlds[i], p, q, c, e, view, quiet, myIPs, port);
    EndedCanLand(cfg, run.worlds[i], run.actions[i], run.worlds[i + 1], p, c);
    JoinsLand(cfg, run, i + 1, j, p, c);
    SaneIsShaped(cfg, run.worlds[j + 1]);
  }

  lemma SaneIsShaped(cfg: Config, w: World)
    requires Sane(cfg, w)
    ensures Shaped(cfg, w)
  {
  }
}
