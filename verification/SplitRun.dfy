/**
 * A run with lossy probes that splits in two live clusters and stays split. Three pods form cluster 1; pod 0 fails,
 * misses the others and founds cluster 2; its checker raises the alarm; and its next join of cluster 1 succeeds and
 * yet starts cluster 2 again, because cluster 1 still lists its old entry. Every cluster that is probed as ready
 * along the way has a running majority.
 */
module SplitRun {
  import opened Base
  import opened Members
  import opened Joining
  import opened Bootstrap
  import opened OneCluster
  import opened Runs
  import opened InitialCluster
  import opened Quorum
  import opened Detection
  import opened Recovery
  import C = Checker
  import D = Discovery

  const YES: Env := Env(true, i => Accepted, Accepted, 0, s => s, true, i => Accepted, true)

  function Yes(id: nat): Env {
    YES.(newID := id)
  }

  // ---------------------------------------------------------------- three joins

  lemma ScanOfOneVoter(m: Member, me: Me)
    requires !IsSelf(m, me) && !m.isLearner
    ensures WithRole(Doomed, [m], me, {}) == [] && ScanOf([m], me, {}) == Scan(0, false, 1)
  {
    assert [m][..0] == [] && RoleOf(m, me, {}) == Voter;
    assert WithRole(Voter, [m], me, {}) == WithRole(Voter, [], me, {}) + [m];
  }

  lemma ScanOfTwoVoters(m: Member, n: Member, me: Me)
    requires !IsSelf(m, me) && !m.isLearner && !IsSelf(n, me) && !n.isLearner
    ensures WithRole(Doomed, [m, n], me, {}) == [] && ScanOf([m, n], me, {}) == Scan(0, false, 2)
  {
    assert [m, n][..1] == [m] && RoleOf(n, me, {}) == Voter;
    ScanOfOneVoter(m, me);
  }

  lemma ScanOfOwnAndOthers(m: Member, n: Member, o: Member, me: Me)
    requires IsSelf(m, me) && m.id != 0 && !m.isLearner && !IsSelf(n, me) && !IsSelf(o, me)
    ensures WithRole(Doomed, [m, n, o], me, {}) == []
    ensures ScanOf([m, n, o], me, {}).myID == m.id && !ScanOf([m, n, o], me, {}).myLearner
  {
    assert [m, n, o][..2] == [m, n] && [m, n][..1] == [m] && [m][..0] == [];
    assert RoleOf(m, me, {}) != Doomed && RoleOf(n, me, {}) != Doomed && RoleOf(o, me, {}) != Doomed;
    hide IsSelf, RoleOf;
    assert WithRole(Doomed, [m, n, o], me, {}) == WithRole(Doomed, [m, n], me, {});
    assert WithRole(Doomed, [m, n], me, {}) == WithRole(Doomed, [m], me, {}) == WithRole(Doomed, [], me, {});
    assert MyID([m, n, o], me) == MyID([m, n], me) == MyID([m], me);
    assert MyLearner([m, n, o], me) == MyLearner([m, n], me) == MyLearner([m], me);
  }

  lemma LearnerAddedAndPromoted(s: Site, pod: Pod, id: nat)
    requires |s.members| == 1 && s.disk.None? && !Overlaps(s.members, pod.URLs()) && s.members[0].id != id
    ensures var r := AddMemberAndStart(s, pod, 1, Yes(id));
      && r.outcome == Started && r.site.cluster == s.cluster
      && r.site.members == s.members + [Member(id, "", pod.URLs(), false)]
      && r.site.disk == r.site.child == Some(Data(s.cluster, id))
  {
    var env := Yes(id);
    var m := s.members[0];
    assert AddReply(s, pod.URLs(), env) == Accepted && FirstAccepted(env.promote, 1) == 1;
    var added := AddMember(s, pod.URLs(), true, env);
    assert added.members == [m, Member(id, "", pod.URLs(), true)];
    assert SetVoter(added.members, id) == [m, Member(id, "", pod.URLs(), false)];
    hide SetVoter, Overlaps, AddMember, AddReply, FirstAccepted;
    var up := Boot(added.(initial := ExistingState(BuildClusterConfig(added.members, pod.name))), Data(s.cluster, id));
    assert PromoteTimes(up, id, env, 0) == up;
    assert PromoteTimes(up, id, env, 1) == PromoteOnce(up, id, Accepted);
    assert AddMemberShape(s, added);
  }

  ghost predicate AddMemberShape(s: Site, added: Site) {
    added.cluster == s.cluster && added.disk == s.disk
  }

  /** A second pod joining a one-member cluster: added as a learner, started, promoted. */
  lemma SecondPodJoins(s: Site, pod: Pod, id: nat)
    requires |s.members| == 1 && s.disk.None? && !s.members[0].isLearner
    requires !IsSelf(s.members[0], pod.Me()) && !Overlaps(s.members, pod.URLs())
    requires s.members[0].id != id
    ensures var r := JoinPass(s, pod, {}, Yes(id));
      && r.outcome == Started && r.site.cluster == s.cluster
      && r.site.members == s.members + [Member(id, "", pod.URLs(), false)]
      && r.site.disk == r.site.child == Some(Data(s.cluster, id))
  {
    assert s.members == [s.members[0]];
    hide IsSelf, WithRole, ScanOf, AddMemberAndStart, Overlaps;
    ScanOfOneVoter(s.members[0], pod.Me());
    assert s.(disk := None) == s;
    LearnerAddedAndPromoted(s, pod, id);
  }

  lemma VoterAdded(s: Site, pod: Pod, id: nat)
    requires s.disk.None? && !Overlaps(s.members, pod.URLs())
    ensures var r := AddMemberAndStart(s, pod, 2, Yes(id));
      && r.outcome == Started && r.site.cluster == s.cluster
      && r.site.members == s.members + [Member(id, "", pod.URLs(), false)]
      && r.site.disk == r.site.child == Some(Data(s.cluster, id))
  {
    assert AddReply(s, pod.URLs(), Yes(id)) == Accepted;
    hide Overlaps, BuildClusterConfig, AddReply, FirstAccepted;
  }

  /** A third pod joining a cluster of two voters: added as a voter and started. */
  lemma ThirdPodJoins(s: Site, pod: Pod, id: nat)
    requires |s.members| == 2 && s.disk.None? && !s.members[0].isLearner && !s.members[1].isLearner
    requires !IsSelf(s.members[0], pod.Me()) && !IsSelf(s.members[1], pod.Me()) && !Overlaps(s.members, pod.URLs())
    ensures var r := JoinPass(s, pod, {}, Yes(id));
      && r.outcome == Started && r.site.cluster == s.cluster
      && r.site.members == s.members + [Member(id, "", pod.URLs(), false)]
      && r.site.disk == r.site.child == Some(Data(s.cluster, id))
  {
    assert s.members == [s.members[0], s.members[1]];
    hide IsSelf, WithRole, ScanOf, AddMemberAndStart, Overlaps;
    ScanOfTwoVoters(s.members[0], s.members[1], pod.Me());
    assert s.(disk := None) == s;
    VoterAdded(s, pod, id);
  }

  /** A pod that finds its own voting entry and has data starts on that data, whatever cluster it is of. */
  lemma OldEntryStartsOldData(s: Site, pod: Pod, id: nat)
    requires |s.members| == 3 && s.disk.Some?
    requires IsSelf(s.members[0], pod.Me()) && s.members[0].id != 0 && !s.members[0].isLearner
    requires !IsSelf(s.members[1], pod.Me()) && !IsSelf(s.members[2], pod.Me())
    ensures var r := JoinPass(s, pod, {}, Yes(id));
      r.outcome == Started && r.site == s.(child := s.disk)
  {
    assert s.members == [s.members[0], s.members[1], s.members[2]];
    hide IsSelf, WithRole, ScanOf;
    ScanOfOwnAndOthers(s.members[0], s.members[1], s.members[2], pod.Me());
  }

  // ---------------------------------------------------------------- the worlds and actions of the run

  ghost predicate ThreePods(cfg: Config) {
    ValidConfig(cfg) && DisjointURLs(cfg) && |cfg| == 3
  }

  function First(cfg: Config): Member
    requires |cfg| == 3
  {
    FounderMember(cfg[0], Yes(11))
  }

  function Second(cfg: Config): Member
    requires |cfg| == 3
  {
    Member(12, "", cfg[1].URLs(), false)
  }

  function Third(cfg: Config): Member
    requires |cfg| == 3
  {
    Member(13, "", cfg[2].URLs(), false)
  }

  function Three(cfg: Config): (members: seq<Member>)
    requires |cfg| == 3
    ensures |members| == 3
  {
    [First(cfg), Second(cfg), Third(cfg)]
  }

  const D0 := Some(Data(1, 11))
  const D1 := Some(Data(1, 12))
  const D2 := Some(Data(1, 13))
  const E := Some(Data(2, 14))

  function W0(): World {
    World(map[], map[], {}, [None, None, None], [None, None, None])
  }

  function W1(cfg: Config): World
    requires |cfg| == 3
  {
    World(map[1 := [First(cfg)]], map[1 := 11], {11}, [D0, None, None], [D0, None, None])
  }

  function W2(cfg: Config): World
    requires |cfg| == 3
  {
    World(map[1 := [First(cfg), Second(cfg)]], map[1 := 11], {11, 12}, [D0, D1, None], [D0, D1, None])
  }

  function W3(cfg: Config, child: Option<Data>): World
    requires |cfg| == 3
  {
    World(map[1 := Three(cfg)], map[1 := 11], {11, 12, 13}, [D0, D1, D2], [child, D1, D2])
  }

  /** After the second founding. */
  function W4(cfg: Config, ids: set<nat>, child: Option<Data>): World
    requires |cfg| == 3
  {
    World(map[1 := Three(cfg), 2 := [FounderMember(cfg[0], Yes(14))]], map[1 := 11, 2 := 14], ids,
          [E, D1, D2], [child, D1, D2])
  }

  const IDS: set<nat> := {11, 12, 13, 14}
  const LATER: set<nat> := {11, 12, 13, 14, 15}

  const FOUND1 := Iterate(0, [Unreachable, Unreachable, Unreachable], 0, {}, Yes(11), 1)
  const JOIN1 := Iterate(1, [Ready, Unreachable, Unreachable], 0, {}, Yes(12), 9)
  const JOIN2 := Iterate(2, [Ready, Ready, Unreachable], 0, {}, Yes(13), 9)
  const FOUND2 := Iterate(0, [Unreachable, Unreachable, Unreachable], 0, {}, Yes(14), 2)
  const REJOIN := Iterate(0, [Unreachable, Ready, Ready], 1, {}, Yes(15), 9)

  function TheRun(cfg: Config): Run
    requires |cfg| == 3
  {
    Run([W0(), W1(cfg), W2(cfg), W3(cfg, D0), W3(cfg, None), W4(cfg, IDS, E), W4(cfg, IDS, None),
         W4(cfg, LATER, E)],
        [FOUND1, JOIN1, JOIN2, Exit(0, true), FOUND2, Exit(0, true), REJOIN])
  }

  // ---------------------------------------------------------------- its steps

  lemma StepsFound(cfg: Config)
    requires ThreePods(cfg)
    ensures LossyStep(cfg, W0(), FOUND1, W1(cfg))
    ensures LossyStep(cfg, W3(cfg, None), FOUND2, W4(cfg, IDS, E))
  {
    assert DecisionOf(FOUND1) == FoundNew && DecisionOf(FOUND2) == FoundNew;
    hide ValidConfig, DisjointURLs;
  }

  lemma StepsExit(cfg: Config)
    requires ThreePods(cfg)
    ensures LossyStep(cfg, W3(cfg, D0), Exit(0, true), W3(cfg, None))
    ensures LossyStep(cfg, W4(cfg, IDS, E), Exit(0, true), W4(cfg, IDS, None))
  {
    hide ValidConfig, DisjointURLs;
  }

  lemma OwnersOfThree(cfg: Config)
    requires ThreePods(cfg)
    ensures IsSelf(First(cfg), cfg[0].Me()) && !IsSelf(First(cfg), cfg[1].Me()) && !IsSelf(First(cfg), cfg[2].Me())
    ensures !IsSelf(Second(cfg), cfg[0].Me()) && !IsSelf(Second(cfg), cfg[2].Me())
    ensures !IsSelf(Third(cfg), cfg[0].Me())
  {
    FounderIsSelf(cfg, 0, Yes(11));
    OwnerRecognises(cfg, 1, 0, Second(cfg));
    OwnerRecognises(cfg, 1, 2, Second(cfg));
    OwnerRecognises(cfg, 2, 0, Third(cfg));
    hide IsSelf;
  }

  lemma NoOverlap(cfg: Config, m: Member, p: nat, q: nat)
    requires ThreePods(cfg) && p < q < 3 && m.peerURLs == cfg[p].URLs()
    ensures forall u | u in cfg[q].URLs() :: u !in m.peerURLs
  {
    assert cfg[p].Me().urls !! cfg[q].Me().urls;
    forall u | u in cfg[q].URLs() ensures u !in m.peerURLs {
      assert u in cfg[q].Me().urls && u !in cfg[p].Me().urls;
    }
  }

  lemma JoiningStep(cfg: Config, w: World, a: Action, pass: Pass)
    requires Shaped(cfg, w) && Possible(cfg, w, a) && a.Iterate? && DecisionOf(a) == JoinReady
    requires pass == JoinPass(SiteOf(w, a.p, w.children[a.via].value.cluster), cfg[a.p], a.dead, a.env)
    ensures LossyStep(cfg, w, a, AfterJoin(w, a.p, pass.site, a.env)) && PassOf(cfg, w, a) == pass
  {
    hide JoinPass;
  }

  lemma JoinsPossible(cfg: Config)
    requires ThreePods(cfg)
    ensures Shaped(cfg, W1(cfg)) && Possible(cfg, W1(cfg), JOIN1) && DecisionOf(JOIN1) == JoinReady
    ensures Shaped(cfg, W2(cfg)) && Possible(cfg, W2(cfg), JOIN2) && DecisionOf(JOIN2) == JoinReady
    ensures var w := W4(cfg, IDS, None); Shaped(cfg, w) && Possible(cfg, w, REJOIN) && DecisionOf(REJOIN) == JoinReady
  {
    hide ValidConfig, DisjointURLs;
    assert Ready == JOIN1.seen[0] && Ready == JOIN2.seen[0] && Ready == REJOIN.seen[1];
  }

  lemma WorldsAfterJoins(cfg: Config, r: Site)
    requires |cfg| == 3 && r.cluster == 1
    ensures r.members == [First(cfg)] + [Second(cfg)] && r.disk == r.child == D1 ==>
      AfterJoin(W1(cfg), 1, r, Yes(12)) == W2(cfg)
    ensures r.members == [First(cfg), Second(cfg)] + [Third(cfg)] && r.disk == r.child == D2 ==>
      AfterJoin(W2(cfg), 2, r, Yes(13)) == W3(cfg, D0)
    ensures r.members == Three(cfg) && r.disk == r.child == E ==>
      AfterJoin(W4(cfg, IDS, None), 0, r, Yes(15)) == W4(cfg, LATER, E)
  {
    assert [First(cfg)] + [Second(cfg)] == [First(cfg), Second(cfg)];
    assert [First(cfg), Second(cfg)] + [Third(cfg)] == Three(cfg);
    assert W4(cfg, IDS, None).clusters[1 := Three(cfg)] == W4(cfg, IDS, None).clusters;
  }

  lemma StepJoin1(cfg: Config)
    requires ThreePods(cfg)
    ensures LossyStep(cfg, W1(cfg), JOIN1, W2(cfg))
  {
    OwnersOfThree(cfg);
    JoinsPossible(cfg);
    NoOverlap(cfg, First(cfg), 0, 1);
    var s := SiteOf(W1(cfg), 1, 1);
    assert s.members == [First(cfg)] && s.disk.None? && s.cluster == 1 && !Overlaps(s.members, cfg[1].URLs());
    hide JoinPass, IsSelf, Overlaps, ThreePods, LossyStep, Possible, Shaped, DecisionOf, AfterJoin, W2;
    SecondPodJoins(s, cfg[1], 12);
    var r := JoinPass(s, cfg[1], {}, Yes(12));
    WorldsAfterJoins(cfg, r.site);
    JoiningStep(cfg, W1(cfg), JOIN1, r);
  }

  lemma StepJoin2(cfg: Config)
    requires ThreePods(cfg)
    ensures LossyStep(cfg, W2(cfg), JOIN2, W3(cfg, D0))
  {
    OwnersOfThree(cfg);
    JoinsPossible(cfg);
    NoOverlap(cfg, First(cfg), 0, 2);
    NoOverlap(cfg, Second(cfg), 1, 2);
    var s := SiteOf(W2(cfg), 2, 1);
    assert s.members == [First(cfg), Second(cfg)] && s.disk.None? && s.cluster == 1;
    assert !Overlaps(s.members, cfg[2].URLs());
    hide JoinPass, IsSelf, Overlaps, ThreePods, LossyStep, Possible, Shaped, DecisionOf, AfterJoin, W3;
    ThirdPodJoins(s, cfg[2], 13);
    var r := JoinPass(s, cfg[2], {}, Yes(13));
    WorldsAfterJoins(cfg, r.site);
    JoiningStep(cfg, W2(cfg), JOIN2, r);
  }

  lemma StepRejoin(cfg: Config)
    requires ThreePods(cfg)
    ensures LossyStep(cfg, W4(cfg, IDS, None), REJOIN, W4(cfg, LATER, E))
    ensures StartsIn(cfg, W4(cfg, IDS, None), REJOIN, 0, 1)
  {
    OwnersOfThree(cfg);
    JoinsPossible(cfg);
    var s := SiteOf(W4(cfg, IDS, None), 0, 1);
    assert s.members == Three(cfg) && s.disk == E && s.cluster == 1;
    hide JoinPass, IsSelf, ThreePods, LossyStep, Possible, Shaped, DecisionOf, AfterJoin;
    OldEntryStartsOldData(s, cfg[0], 15);
    var r := JoinPass(s, cfg[0], {}, Yes(15));
    WorldsAfterJoins(cfg, r.site);
    JoiningStep(cfg, W4(cfg, IDS, None), REJOIN, r);
  }

  lemma SevenStepsAreARun(cfg: Config, w0: World, a0: Action, w1: World, a1: Action, w2: World, a2: Action, w3: World,
      a3: Action, w4: World, a4: Action, w5: World, a5: Action, w6: World, a6: Action, w7: World)
    requires ValidConfig(cfg) && Initial(cfg, w0)
    requires LossyStep(cfg, w0, a0, w1) && LossyStep(cfg, w1, a1, w2) && LossyStep(cfg, w2, a2, w3)
    requires LossyStep(cfg, w3, a3, w4) && LossyStep(cfg, w4, a4, w5) && LossyStep(cfg, w5, a5, w6)
    requires LossyStep(cfg, w6, a6, w7)
    ensures IsLossyRun(cfg, Run([w0, w1, w2, w3, w4, w5, w6, w7], [a0, a1, a2, a3, a4, a5, a6]))
  {
    hide LossyStep, ValidConfig, Initial;
    var run := Run([w0, w1, w2, w3, w4, w5, w6, w7], [a0, a1, a2, a3, a4, a5, a6]);
    forall k | 0 <= k < |run.actions| ensures LossyStep(cfg, run.worlds[k], run.actions[k], run.worlds[k + 1]) {
      assert k == 0 || k == 1 || k == 2 || k == 3 || k == 4 || k == 5 || k == 6;
    }
  }

  lemma ThreeStepsAreARun(cfg: Config, w0: World, a0: Action, w1: World, a1: Action, w2: World, a2: Action, w3: World)
    requires ValidConfig(cfg) && Initial(cfg, w0)
    requires Step(cfg, w0, a0, w1) && Step(cfg, w1, a1, w2) && Step(cfg, w2, a2, w3)
    ensures IsRun(cfg, Run([w0, w1, w2, w3], [a0, a1, a2]))
  {
    hide Step, ValidConfig, Initial;
    var run := Run([w0, w1, w2, w3], [a0, a1, a2]);
    forall k | 0 <= k < |run.actions| ensures Step(cfg, run.worlds[k], run.actions[k], run.worlds[k + 1]) {
      assert k == 0 || k == 1 || k == 2;
    }
  }

  lemma StartsInitially(cfg: Config)
    requires |cfg| == 3
    ensures Initial(cfg, W0())
  {
    assert W0().disks == seq(|cfg|, i => None);
  }

  lemma TheRunIsLossy(cfg: Config)
    requires ThreePods(cfg)
    ensures IsLossyRun(cfg, TheRun(cfg))
  {
    hide LossyStep, ValidConfig, DisjointURLs, W0, W1, W2, W3, W4, Initial, IsLossyRun;
    StartsInitially(cfg);
    StepsFound(cfg);
    StepJoin1(cfg);
    StepJoin2(cfg);
    StepsExit(cfg);
    StepRejoin(cfg);
    SevenStepsAreARun(cfg, W0(), FOUND1, W1(cfg), JOIN1, W2(cfg), JOIN2, W3(cfg, D0), Exit(0, true), W3(cfg, None),
      FOUND2, W4(cfg, IDS, E), Exit(0, true), W4(cfg, IDS, None), REJOIN, W4(cfg, LATER, E));
  }

  /** The first three steps are a run with faithful discovery: three pods can get to run one cluster together. */
  lemma ThreePodsCanRunTogether(cfg: Config)
    requires ThreePods(cfg)
    ensures IsRun(cfg, Run([W0(), W1(cfg), W2(cfg), W3(cfg, D0)], [FOUND1, JOIN1, JOIN2]))
    ensures W3(cfg, D0).children == [D0, D1, D2]
  {
    hide LossyStep, Step, ValidConfig, DisjointURLs, W0, W1, W2, Initial, IsRun;
    StartsInitially(cfg);
    StepsFound(cfg);
    StepJoin1(cfg);
    StepJoin2(cfg);
    StepsAreFaithful(cfg);
    ThreeStepsAreARun(cfg, W0(), FOUND1, W1(cfg), JOIN1, W2(cfg), JOIN2, W3(cfg, D0));
  }

  lemma StepsAreFaithful(cfg: Config)
    requires |cfg| == 3
    ensures LossyStep(cfg, W0(), FOUND1, W1(cfg)) ==> Step(cfg, W0(), FOUND1, W1(cfg))
    ensures LossyStep(cfg, W1(cfg), JOIN1, W2(cfg)) ==> Step(cfg, W1(cfg), JOIN1, W2(cfg))
    ensures LossyStep(cfg, W2(cfg), JOIN2, W3(cfg, D0)) ==> Step(cfg, W2(cfg), JOIN2, W3(cfg, D0))
  {
    hide Next;
  }

  // ---------------------------------------------------------------- majorities at every probe

  /** The members of cluster c whose etcd is running. */
  ghost function Running(w: World, c: nat): (up: set<nat>)
    ensures forall id :: id in up <==> RunsMember(w, c, id)
  {
    var ids := set q | 0 <= q < |w.children| && w.children[q].Some? && w.children[q].value.cluster == c
                    :: w.children[q].value.member;
    ids
  }

  ghost predicate RunsMember(w: World, c: nat, id: nat) {
    exists q :: 0 <= q < |w.children| && w.children[q] == Some(Data(c, id))
  }

  /** Whoever is probed as ready runs an etcd whose cluster has a running majority: without a leader it is not ready. */
  ghost predicate ReadyHasQuorum(w: World, a: Action) {
    a.Iterate? ==> forall q | 0 <= q < |a.seen| && a.seen[q] == Ready :: QuorumAt(w, q)
  }

  ghost predicate QuorumAt(w: World, q: nat) {
    && q < |w.children| && w.children[q].Some? && w.children[q].value.cluster in w.clusters
    && HasQuorum(w.clusters[w.children[q].value.cluster], Running(w, w.children[q].value.cluster))
  }

  lemma QuorumsOf(cfg: Config, up: set<nat>)
    requires |cfg| == 3
    ensures 11 in up ==> HasQuorum([First(cfg)], up)
    ensures 11 in up && 12 in up ==> HasQuorum([First(cfg), Second(cfg)], up)
    ensures 12 in up && 13 in up ==> HasQuorum(Three(cfg), up)
  {
    var a, b, c := First(cfg), Second(cfg), Third(cfg);
    assert [] + [a] == [a] && [a] + [b] == [a, b] && [a, b] + [c] == Three(cfg);
    AppendCounts([], a, up);
    AppendCounts([a], b, up);
    AppendCounts([a, b], c, up);
    assert Voters([]) == 0 && UpVoters([], up) == 0;
    hide Voters, UpVoters;
  }

  lemma ProbesHaveQuorum(cfg: Config)
    requires |cfg| == 3
    ensures ReadyHasQuorum(W0(), FOUND1) && ReadyHasQuorum(W1(cfg), JOIN1) && ReadyHasQuorum(W2(cfg), JOIN2)
    ensures ReadyHasQuorum(W3(cfg, None), FOUND2) && ReadyHasQuorum(W4(cfg, IDS, None), REJOIN)
    ensures QuorumAt(W4(cfg, IDS, E), 1)
  {
    hide HasQuorum, Running;
    RunningThen(cfg);
    QuorumsOf(cfg, Running(W1(cfg), 1));
    QuorumsOf(cfg, Running(W2(cfg), 1));
    QuorumsOf(cfg, Running(W4(cfg, IDS, None), 1));
    QuorumsOf(cfg, Running(W4(cfg, IDS, E), 1));
  }

  ghost predicate ReadyAlwaysHasQuorum(run: Run) {
    |run.actions| < |run.worlds| && forall k | 0 <= k < |run.actions| :: ReadyHasQuorum(run.worlds[k], run.actions[k])
  }

  lemma RunHasQuorums(cfg: Config)
    requires |cfg| == 3
    ensures ReadyAlwaysHasQuorum(TheRun(cfg))
  {
    hide ReadyHasQuorum, QuorumAt, W0, W1, W2, W3, W4;
    ProbesHaveQuorum(cfg);
    var run := TheRun(cfg);
    forall k | 0 <= k < |run.actions| ensures ReadyHasQuorum(run.worlds[k], run.actions[k]) {
      assert k == 0 || k == 1 || k == 2 || k == 3 || k == 4 || k == 5 || k == 6;
      if k == 3 || k == 5 {
        NoProbe(run.worlds[k], run.actions[k]);
      }
    }
  }

  lemma NoProbe(w: World, a: Action)
    requires !a.Iterate?
    ensures ReadyHasQuorum(w, a)
  {
  }

  lemma RunningThen(cfg: Config)
    requires |cfg| == 3
    ensures 11 in Running(W1(cfg), 1)
    ensures 11 in Running(W2(cfg), 1) && 12 in Running(W2(cfg), 1)
    ensures forall child :: 12 in Running(W4(cfg, IDS, child), 1) && 13 in Running(W4(cfg, IDS, child), 1)
  {
    assert W1(cfg).children[0] == Some(Data(1, 11));
    assert W2(cfg).children[0] == Some(Data(1, 11)) && W2(cfg).children[1] == Some(Data(1, 12));
    forall child ensures RunsMember(W4(cfg, IDS, child), 1, 12) && RunsMember(W4(cfg, IDS, child), 1, 13) {
      var w := W4(cfg, IDS, child);
      assert w.children[1] == Some(Data(1, 12)) && w.children[2] == Some(Data(1, 13));
    }
  }

  // ---------------------------------------------------------------- the alarm

  /** What pod 0's checker sees: the directory has the file of another node, which is healthy and answers from cluster 1. */
  function AlarmView(cfg: Config, node: string): C.View
    requires |cfg| == 3
  {
    var answer := C.Answer(1, IDsOf(Three(cfg)));
    C.View(2, 14, Some([D.Entry(node, false, true, D.Missing)]), e => D.HealthHealthy, e => Some(answer))
  }

  lemma SplitIsSeen(cfg: Config, node: string, port: string)
    requires |cfg| == 3 && node !in cfg[0].ips
    ensures SplitSeen(W4(cfg, IDS, E), 0, 1, 1, C.JoinHostPort(node, port), AlarmView(cfg, node), ToSet(cfg[0].ips), port)
  {
    hide C.JoinHostPort;
    var w, view, mine := W4(cfg, IDS, E), AlarmView(cfg, node), ToSet(cfg[0].ips);
    OneEndpoint(node, mine, port, view.health);
    assert AnsweredBy(w, 1, C.Answer(1, IDsOf(Three(cfg))));
    hide AnsweredBy, C.Endpoints;
  }

  lemma OneEndpoint(node: string, mine: set<string>, port: string, health: string -> D.Health)
    requires node !in mine && health(C.JoinHostPort(node, port)) == D.HealthHealthy
    ensures C.JoinHostPort(node, port) in C.Endpoints([D.Entry(node, false, true, D.Missing)], mine, port, health)
  {
    hide C.JoinHostPort;
    var entry := D.Entry(node, false, true, D.Missing);
    assert D.IPsOf(entry) == [node] && C.FirstUsable([node], mine, port, health) == Some(node);
    assert entry in [entry] && C.EndpointOf(entry, mine, port, health) == Some(C.JoinHostPort(node, port));
  }

  lemma NotOneLive(w: World)
    requires |w.children| > 1 && w.children[0].Some? && w.children[1].Some?
    requires w.children[0].value.cluster != w.children[1].value.cluster
    ensures !OneLive(w)
  {
  }

  lemma RunParts(cfg: Config)
    requires |cfg| == 3
    ensures var run := TheRun(cfg);
      && |run.worlds| == 8 && |run.actions| == 7 && run.actions[5] == Exit(0, true) && run.actions[6] == REJOIN
      && run.worlds[5] == W4(cfg, IDS, E) && run.worlds[6] == W4(cfg, IDS, None) && run.worlds[7] == W4(cfg, LATER, E)
  {
    hide W0, W1, W2, W3, W4;
  }

  lemma SplitWorldIsSane(cfg: Config)
    requires ThreePods(cfg)
    ensures Sane(cfg, W4(cfg, IDS, E))
  {
    hide IsLossyRun, Sane, ValidConfig, DisjointURLs, W4;
    TheRunIsLossy(cfg);
    RunParts(cfg);
    SaneInLossyRuns(cfg, TheRun(cfg), 5);
  }

  lemma SplitRaisesAlarm(cfg: Config, node: string, port: string)
    requires ThreePods(cfg) && node !in cfg[0].ips
    ensures var w, mine := W4(cfg, IDS, E), ToSet(cfg[0].ips);
      && !OneLive(w) && QuorumAt(w, 1)
      && SplitSeen(w, 0, 1, 1, C.JoinHostPort(node, port), AlarmView(cfg, node), mine, port)
      && C.Alarms([C.Tick(AlarmView(cfg, node))], mine, port)
  {
    var w, view, mine := W4(cfg, IDS, E), AlarmView(cfg, node), ToSet(cfg[0].ips);
    NotOneLive(w);
    hide OneLive, W4, QuorumAt, SplitSeen, AlarmView, C.Alarms, C.JoinHostPort, Sane, DisjointURLs, ValidConfig;
    ProbesHaveQuorum(cfg);
    SplitIsSeen(cfg, node, port);
    SplitWorldIsSane(cfg);
    AlarmedAtOnce(cfg, w, 0, 1, 1, C.JoinHostPort(node, port), view, mine, port);
  }

  lemma AlarmedAtOnce(cfg: Config, w: World, p: nat, q: nat, c: nat, e: string, view: C.View, myIPs: set<string>,
      port: string)
    requires Sane(cfg, w) && SplitSeen(w, p, q, c, e, view, myIPs, port)
    ensures C.Alarms([C.Tick(view)], myIPs, port)
  {
    hide Sane, SplitSeen, C.Alarms;
    assert [] + [C.Tick(view)] == [C.Tick(view)];
    SplitIsAlarmed(cfg, w, p, q, c, e, view, [], myIPs, port);
  }

  /**
   * The hypothesis of recovery on listed entries is essential: for every three pods there is a run with lossy probes,
   * every ready node having a majority, that splits in two live clusters (world 5); there pod 0's checker raises the
   * alarm and its etcd is ended (action 5); and its next join of cluster 1 is successful (action 6) and yet starts
   * cluster 2 again (world 7).
   */
  lemma SplitPersists(cfg: Config, node: string, port: string)
    requires ThreePods(cfg) && node !in cfg[0].ips
    ensures IsLossyRun(cfg, TheRun(cfg)) && ReadyAlwaysHasQuorum(TheRun(cfg))
    ensures var w, mine := TheRun(cfg).worlds[5], ToSet(cfg[0].ips);
      && !OneLive(w) && QuorumAt(w, 1)
      && SplitSeen(w, 0, 1, 1, C.JoinHostPort(node, port), AlarmView(cfg, node), mine, port)
      && C.Alarms([C.Tick(AlarmView(cfg, node))], mine, port)
      && TheRun(cfg).actions[5] == Exit(0, true)
    ensures var w, a := TheRun(cfg).worlds[6], TheRun(cfg).actions[6];
      Shaped(cfg, w) && Possible(cfg, w, a) && StartsIn(cfg, w, a, 0, 1)
    ensures !OneLive(TheRun(cfg).worlds[7])
  {
    NotOneLive(W4(cfg, LATER, E));
    hide IsLossyRun, LossyStep, StartsIn, OneLive, DisjointURLs, ValidConfig, Possible, Shaped, W4,
      ReadyAlwaysHasQuorum, QuorumAt, SplitSeen, AlarmView, C.Alarms, C.JoinHostPort, TheRun;
    RunParts(cfg);
    TheRunIsLossy(cfg);
    RunHasQuorums(cfg);
    StepRejoin(cfg);
    JoinsPossible(cfg);
    SplitRaisesAlarm(cfg, node, port);
  }
}
