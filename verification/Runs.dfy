/** Safety of whole runs: any number of pods, any interleaving of their iterations, crashes, evictions and name updates. */
module Runs {
  import opened Base
  import opened Members
  import opened Joining
  import opened JoinFacts
  import opened Bootstrap
  import opened OneCluster
  import opened InitialCluster

  datatype Run = Run(worlds: seq<World>, actions: seq<Action>)

  ghost predicate IsRun(cfg: Config, run: Run) {
    && ValidConfig(cfg)
    && |run.worlds| == |run.actions| + 1
    && Initial(cfg, run.worlds[0])
    && forall k | 0 <= k < |run.actions| :: Step(cfg, run.worlds[k], run.actions[k], run.worlds[k + 1])
  }

  lemma {:induction false} RunInv(cfg: Config, run: Run, k: nat)
    requires IsRun(cfg, run) && k < |run.worlds|
    ensures Inv(cfg, run.worlds[k])
  {
    if k == 0 {
      InitialInv(cfg, run.worlds[0]);
    } else {
      RunInv(cfg, run, k - 1);
      assert Step(cfg, run.worlds[k - 1], run.actions[k - 1], run.worlds[k]);
      StepKeeps(cfg, run.worlds[k - 1], run.actions[k - 1], run.worlds[k]);
    }
  }

  lemma StepAt(cfg: Config, run: Run, k: nat)
    requires IsRun(cfg, run) && k < |run.actions|
    ensures ValidConfig(cfg) && |run.worlds| == |run.actions| + 1
    ensures Step(cfg, run.worlds[k], run.actions[k], run.worlds[k + 1])
    ensures Inv(cfg, run.worlds[k]) && Inv(cfg, run.worlds[k + 1])
    ensures Shaped(cfg, run.worlds[k]) && Shaped(cfg, run.worlds[k + 1])
  {
    RunInv(cfg, run, k);
    RunInv(cfg, run, k + 1);
  }

  /** All running etcd processes belong to one cluster, at every moment of every run. */
  lemma SingleLiveCluster(cfg: Config, run: Run, k: nat, p: nat, q: nat)
    requires IsRun(cfg, run) && k < |run.worlds| && p < |cfg| && q < |cfg|
    requires |run.worlds[k].children| == |cfg|
    requires run.worlds[k].children[p].Some? && run.worlds[k].children[q].Some?
    ensures run.worlds[k].children[p].value.cluster == run.worlds[k].children[q].value.cluster
  {
    RunInv(cfg, run, k);
  }

  /** If the live cluster lists a member that pod p recognises as itself, p has no data or exactly that member's data. */
  lemma NoStaleDataInRuns(cfg: Config, run: Run, k: nat, p: nat, c: nat, m: Member)
    requires IsRun(cfg, run) && k < |run.worlds| && p < |cfg|
    requires var w := run.worlds[k]; |w.disks| == |cfg| && c in w.clusters && Live(w, c) && m in w.clusters[c]
    requires IsSelf(m, cfg[p].Me())
    ensures run.worlds[k].disks[p].None? || run.worlds[k].disks[p] == Some(Data(c, m.id))
  {
    RunInv(cfg, run, k);
    assert DataFits(SiteOf(run.worlds[k], p, c), cfg[p].Me());
  }

  // ---------------------------------------------------------------- where clusters come from

  ghost predicate FoundedAt(cfg: Config, run: Run, j: nat, c: nat)
    requires IsRun(cfg, run) && j < |run.actions|
  {
    var a := run.actions[j];
    && a.Iterate? && a.p == 0 && DecisionOf(a) == FoundNew && a.newCluster == c && a.env.start
    && c !in run.worlds[j].clusters
    && forall q | 0 <= q < |run.worlds[j].children| :: run.worlds[j].children[q].None?
  }

  lemma NewClusterIsFounded(cfg: Config, w: World, a: Action, w': World, c: nat)
    requires Inv(cfg, w) && Step(cfg, w, a, w') && c in w'.clusters && c !in w.clusters
    ensures a.Iterate? && a.p == 0 && DecisionOf(a) == FoundNew && a.newCluster == c && a.env.start
    ensures forall q | 0 <= q < |w.children| :: w.children[q].None?
  {
    hide JoinPass, Inv;
    if a.Iterate? && DecisionOf(a) == JoinReady {
      JoinClusterStays(SiteOf(w, a.p, w.children[a.via].value.cluster), cfg[a.p], a.dead, a.env);
    } else {
      FoundingSeesNobody(cfg, w, a);
    }
  }

  /** Every cluster that ever exists was founded by pod 0, in an iteration that started while no etcd was running. */
  lemma {:induction false} EveryClusterWasFoundedByPodZero(cfg: Config, run: Run, k: nat, c: nat) returns (j: nat)
    requires IsRun(cfg, run) && k < |run.worlds| && c in run.worlds[k].clusters
    ensures j < k && FoundedAt(cfg, run, j, c)
  {
    hide Step, Inv, ValidConfig;
    assert k > 0;
    if c in run.worlds[k - 1].clusters {
      j := EveryClusterWasFoundedByPodZero(cfg, run, k - 1, c);
    } else {
      j := k - 1;
      RunInv(cfg, run, j);
      assert Step(cfg, run.worlds[j], run.actions[j], run.worlds[k]);
      NewClusterIsFounded(cfg, run.worlds[j], run.actions[j], run.worlds[k], c);
    }
  }

  // ---------------------------------------------------------------- dead clusters

  lemma LiveWasLive(cfg: Config, w: World, a: Action, w': World, c: nat)
    requires ValidConfig(cfg) && Inv(cfg, w) && Step(cfg, w, a, w')
    requires c in w.clusters && Live(w', c)
    ensures c in w'.clusters && Live(w, c)
  {
    hide JoinPass, InitPass, Kept, Sane, OneLive, NoStaleData, ValidConfig;
    var q :| 0 <= q < |w'.children| && w'.children[q].Some? && w'.children[q].value.cluster == c;
    if q < |w.children| && w'.children[q] == w.children[q] {
      assert Live(w, c);
    } else if a.Iterate? && DecisionOf(a) == JoinReady {
      JoinIsKept(cfg, w, a);
    } else {
      FoundedChild(cfg, w, a);
    }
  }

  lemma FoundedChild(cfg: Config, w: World, a: Action)
    requires Shaped(cfg, w) && Possible(cfg, w, a) && a.Iterate? && DecisionOf(a) == FoundNew
    ensures var r := PassOf(cfg, w, a);
      r.outcome == Started ==> r.site.child.Some? && r.site.child.value.cluster == a.newCluster
  {
  }

  /** A cluster that no process runs in never runs again. */
  lemma {:induction false} DeadClusterStaysDead(cfg: Config, run: Run, i: nat, j: nat, c: nat)
    requires IsRun(cfg, run) && i <= j < |run.worlds| && c in run.worlds[i].clusters && !Live(run.worlds[i], c)
    ensures c in run.worlds[j].clusters && !Live(run.worlds[j], c)
  {
    hide Step, Inv, ValidConfig, Live, Initial;
    if i < j {
      DeadClusterStaysDead(cfg, run, i, j - 1, c);
      RunInv(cfg, run, j - 1);
      assert Step(cfg, run.worlds[j - 1], run.actions[j - 1], run.worlds[j]);
      ClustersStay(cfg, run.worlds[j - 1], run.actions[j - 1], run.worlds[j]);
      if Live(run.worlds[j], c) {
        LiveWasLive(cfg, run.worlds[j - 1], run.actions[j - 1], run.worlds[j], c);
      }
    }
  }

  lemma ClustersStay(cfg: Config, w: World, a: Action, w': World)
    requires Step(cfg, w, a, w')
    ensures w.clusters.Keys <= w'.clusters.Keys
  {
    hide JoinPass, InitPass;
  }

  // ---------------------------------------------------------------- additions are never refused as duplicates

  ghost predicate DisjointURLs(cfg: Config) {
    forall p, q | 0 <= p < q < |cfg| :: cfg[p].Me().urls !! cfg[q].Me().urls
  }

  /** Without an own entry in the list, no listed member shares a URL with this pod. */
  lemma NoOwnEntryNoOverlap(cfg: Config, w: World, p: nat, c: nat, members: seq<Member>, urls: seq<string>)
    requires ValidConfig(cfg) && DisjointURLs(cfg) && Inv(cfg, w) && p < |cfg| && c in w.clusters
    requires forall m | m in members :: m in w.clusters[c] && !IsSelf(m, cfg[p].Me())
    requires multiset(urls) == multiset(cfg[p].URLs())
    ensures !Overlaps(members, urls)
  {
    assert ListOK(cfg, w, c);
    hide IsSelf, Inv;
    SameElements(urls, cfg[p].URLs());
    forall m, u | m in members && u in urls ensures u !in m.peerURLs {
      var o :| 0 <= o < |cfg| && Owns(cfg[o], m);
      OwnerRecognises(cfg, o, p, m);
      SameElements(m.peerURLs, cfg[o].URLs());
      assert u in ToSet(urls) && (u in m.peerURLs ==> u in ToSet(m.peerURLs));
      assert cfg[o].Me().urls !! cfg[p].Me().urls;
    }
  }

  lemma AddFailsOnlyIf(s: Site, pod: Pod, voting: nat, env: Env)
    ensures AddMemberAndStart(s, pod, voting, env).outcome == AddFailed
        ==> env.add != Accepted || Overlaps(s.members, env.arrange(pod.URLs()))
  {
    hide Overlaps, BuildClusterConfig, PromoteLearner;
  }

  /** A refused addition was made to a list of other pods' members only. */
  lemma RefusedAddition(s: Site, pod: Pod, dead: set<string>, env: Env) returns (t: Site)
    requires Tidy(s.members, pod.Me()) && JoinPass(s, pod, dead, env).outcome == AddFailed
    ensures forall m | m in t.members :: m in s.members && !IsSelf(m, pod.Me())
    ensures env.add != Accepted || Overlaps(t.members, env.arrange(pod.URLs()))
  {
    hide IsSelf, AddMemberAndStart, JoinWithData, Tidy, ScanOf, Overlaps, Pod.Me;
    var scan := ScanOf(s.members, pod.Me(), dead);
    var purged := PurgeAll(s, WithRole(Doomed, s.members, pod.Me(), dead), env);
    if s.disk.Some? {
      WithDataNeverAdds(purged, scan.myID, scan.myLearner, env);
    }
    t := if scan.myID == 0 then purged.(disk := None) else RemoveMember(purged, scan.myID, env);
    AddFailsOnlyIf(t, pod, scan.voting, env);
    forall m | m in t.members ensures m in s.members && !IsSelf(m, pod.Me()) {
      OwnEntryHasScannedID(s.members, pod.Me(), dead, m);
    }
  }

  /** In every reachable world a join's add request fails only when the server itself fails it: it is never a duplicate. */
  lemma AddIsNeverADuplicate(cfg: Config, run: Run, k: nat, a: Action)
    requires IsRun(cfg, run) && DisjointURLs(cfg) && k < |run.worlds| && Shaped(cfg, run.worlds[k])
    requires Possible(cfg, run.worlds[k], a) && a.Iterate? && DecisionOf(a) == JoinReady
    requires PassOf(cfg, run.worlds[k], a).outcome == AddFailed
    ensures a.env.add != Accepted
  {
    var w := run.worlds[k];
    RunInv(cfg, run, k);
    var c, pod := w.children[a.via].value.cluster, cfg[a.p];
    assert Tidy(w.clusters[c], pod.Me()) by {
      assert ListOK(cfg, w, c);
    }
    hide Inv, IsSelf, JoinPass, Tidy, DisjointURLs, Overlaps, Pod.Me, Pod.URLs;
    var t := RefusedAddition(SiteOf(w, a.p, c), pod, a.dead, a.env);
    NoOwnEntryNoOverlap(cfg, w, a.p, c, t.members, a.env.arrange(pod.URLs()));
  }

  lemma OwnEntryHasScannedID(members: seq<Member>, me: Me, dead: set<string>, m: Member)
    requires Tidy(members, me)
    ensures m in members && IsSelf(m, me) ==> m.id == ScanOf(members, me, dead).myID != 0
  {
    hide IsSelf, MyLearner, WithRole;
  }

  lemma WithDataNeverAdds(s: Site, id: nat, learner: bool, env: Env)
    requires s.disk.Some?
    ensures JoinWithData(s, id, learner, env).outcome != AddFailed
  {
  }

  // ---------------------------------------------------------------- the learner branch cannot livelock

  ghost predicate JoinAt(cfg: Config, run: Run, k: nat, p: nat)
    requires IsRun(cfg, run) && k < |run.actions|
  {
    var a := run.actions[k];
    a.Iterate? && a.p == p && DecisionOf(a) == JoinReady
  }

  function PassAt(cfg: Config, run: Run, k: nat): Pass
    requires IsRun(cfg, run) && k < |run.actions| && run.actions[k].Iterate? && DecisionOf(run.actions[k]) == JoinReady
  {
    assert Step(cfg, run.worlds[k], run.actions[k], run.worlds[k + 1]);
    PassOf(cfg, run.worlds[k], run.actions[k])
  }

  /** In step k pod p's promotion before a start on existing data fails, and member and data are cleaned up. */
  ghost predicate LearnerFailureAt(cfg: Config, run: Run, k: nat, p: nat)
    requires IsRun(cfg, run) && k < |run.actions|
  {
    JoinAt(cfg, run, k, p) && PassAt(cfg, run, k).outcome == PromoteFailedCleanedUp
  }

  /** In step k pod p is added as a new member and its etcd is started: the new member's data is on disk. */
  ghost predicate FreshStartAt(cfg: Config, run: Run, k: nat, p: nat)
    requires IsRun(cfg, run) && k < |run.actions|
  {
    JoinAt(cfg, run, k, p) && var s := PassAt(cfg, run, k).site;
      s.disk == Some(Data(s.cluster, run.actions[k].env.newID))
  }

  /** Pod p's disk is empty or holds the data of a cluster's founding member. */
  ghost predicate FounderOrNothing(w: World, p: nat)
    requires p < |w.disks|
  {
    w.disks[p].Some? ==>
      var d := w.disks[p].value; d.cluster in w.founder && d.member == w.founder[d.cluster]
  }

  lemma WithDataFailureIsOurs(s: Site, pod: Pod, dead: set<string>, env: Env)
    requires JoinPass(s, pod, dead, env).outcome == PromoteFailedCleanedUp
    ensures s.disk.Some? && JoinPass(s, pod, dead, env).site.disk.None?
    ensures ScanOf(s.members, pod.Me(), dead).myID != 0 && ScanOf(s.members, pod.Me(), dead).myLearner
  {
    hide ScanOf, WithRole, AddMember, AddReply, BuildClusterConfig;
  }

  /** A failing pod has data, and the data is not a founding member's. */
  lemma FailureNeedsLearnerData(cfg: Config, w: World, a: Action)
    requires ValidConfig(cfg) && Inv(cfg, w) && Possible(cfg, w, a) && a.Iterate? && DecisionOf(a) == JoinReady
    requires PassOf(cfg, w, a).outcome == PromoteFailedCleanedUp
    ensures !FounderOrNothing(w, a.p)
  {
    var c, me := w.children[a.via].value.cluster, cfg[a.p].Me();
    var s := SiteOf(w, a.p, c);
    assert Live(w, c) && ListOK(cfg, w, c) && DataFits(s, me) && Tidy(s.members, me);
    hide IsSelf, Inv, JoinPass;
    WithDataFailureIsOurs(s, cfg[a.p], a.dead, a.env);
    var m :| m in s.members && IsSelf(m, me) && m.isLearner;
    assert s.disk == Some(Data(c, m.id));
  }

  lemma OnlyFreshStartsFillDisks(cfg: Config, w: World, a: Action, w': World, p: nat)
    requires ValidConfig(cfg) && Inv(cfg, w) && Step(cfg, w, a, w') && p < |cfg| && FounderOrNothing(w, p)
    requires a.Iterate? && a.p == p && DecisionOf(a) == JoinReady ==>
      var s := PassOf(cfg, w, a).site; s.disk != Some(Data(s.cluster, a.env.newID))
    ensures Shaped(cfg, w') && FounderOrNothing(w', p)
  {
    hide JoinPass, Kept, ListOK, DiskOK, NoStaleData;
    StepKeeps(cfg, w, a, w');
    if a.Iterate? && DecisionOf(a) == JoinReady {
      JoinDisk(cfg, w, a);
    }
  }

  lemma JoinDisk(cfg: Config, w: World, a: Action)
    requires ValidConfig(cfg) && Inv(cfg, w) && Possible(cfg, w, a) && a.Iterate? && DecisionOf(a) == JoinReady
    ensures var r := PassOf(cfg, w, a).site;
      r.disk.None? || r.disk == w.disks[a.p] || r.disk == Some(Data(r.cluster, a.env.newID))
  {
    hide JoinPass, Inv, IsSelf;
    JoinIsKept(cfg, w, a);
  }

  /**
   * Between two failures of the learner branch of the same pod, the pod was added afresh and its etcd started,
   * whether or not the clean-up removal of the first failure succeeded.
   */
  lemma NoLearnerLivelock(cfg: Config, run: Run, i: nat, j: nat, p: nat) returns (k: nat)
    requires IsRun(cfg, run) && i < j < |run.actions| && p < |cfg|
    requires LearnerFailureAt(cfg, run, i, p) && LearnerFailureAt(cfg, run, j, p)
    ensures i < k < j && FreshStartAt(cfg, run, k, p)
  {
    StepAt(cfg, run, j);
    hide IsRun, Inv, Step, ValidConfig, FreshStartAt, FounderOrNothing;
    if forall k | i < k < j :: !FreshStartAt(cfg, run, k, p) {
      StaysFounderOrNothing(cfg, run, i, j, p);
      FailureAtNeedsLearnerData(cfg, run, j, p);
      assert false;
    }
    k :| i < k < j && FreshStartAt(cfg, run, k, p);
  }

  lemma FailureAtNeedsLearnerData(cfg: Config, run: Run, j: nat, p: nat)
    requires IsRun(cfg, run) && j < |run.actions| && p < |cfg| && LearnerFailureAt(cfg, run, j, p)
    ensures Shaped(cfg, run.worlds[j]) && !FounderOrNothing(run.worlds[j], p)
  {
    StepAt(cfg, run, j);
    hide IsRun, Inv, JoinPass, FounderOrNothing;
    FailureNeedsLearnerData(cfg, run.worlds[j], run.actions[j]);
  }

  lemma {:induction false} StaysFounderOrNothing(cfg: Config, run: Run, i: nat, j: nat, p: nat)
    requires IsRun(cfg, run) && i < j < |run.actions| && p < |cfg|
    requires LearnerFailureAt(cfg, run, i, p) && forall k | i < k < j :: !FreshStartAt(cfg, run, k, p)
    ensures Shaped(cfg, run.worlds[j]) && FounderOrNothing(run.worlds[j], p)
  {
    hide IsRun, LearnerFailureAt, FreshStartAt;
    if j == i + 1 {
      FailureEmptiesDisk(cfg, run, i, p);
    } else {
      hide FounderOrNothing;
      StaysFounderOrNothing(cfg, run, i, j - 1, p);
      StaysOneStep(cfg, run, j - 1, p);
    }
  }

  lemma StaysOneStep(cfg: Config, run: Run, k: nat, p: nat)
    requires IsRun(cfg, run) && k < |run.actions| && p < |cfg| && !FreshStartAt(cfg, run, k, p)
    requires |run.worlds[k].disks| == |cfg| && FounderOrNothing(run.worlds[k], p)
    ensures Shaped(cfg, run.worlds[k + 1]) && FounderOrNothing(run.worlds[k + 1], p)
  {
    StepAt(cfg, run, k);
    hide IsRun, Inv, FounderOrNothing, JoinPass, InitPass, Next;
    OnlyFreshStartsFillDisks(cfg, run.worlds[k], run.actions[k], run.worlds[k + 1], p);
  }

  lemma FailureEmptiesDisk(cfg: Config, run: Run, i: nat, p: nat)
    requires IsRun(cfg, run) && i < |run.actions| && p < |cfg| && LearnerFailureAt(cfg, run, i, p)
    ensures Shaped(cfg, run.worlds[i + 1]) && run.worlds[i + 1].disks[p].None?
  {
    StepAt(cfg, run, i);
    hide JoinPass, Inv, IsRun;
    var w, a := run.worlds[i], run.actions[i];
    WithDataFailureIsOurs(SiteOf(w, p, w.children[a.via].value.cluster), cfg[p], a.dead, a.env);
  }
}
