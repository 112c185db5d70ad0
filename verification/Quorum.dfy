/** Quorum arithmetic: the cluster keeps a running majority through every configuration of a join. */
module Quorum {
  import opened Base
  import opened Members
  import opened Joining
  import opened JoinFacts
  import opened InitialCluster

  function Voters(members: seq<Member>): nat {
    if members == [] then 0
    else Voters(members[..|members| - 1]) + if members[|members| - 1].isLearner then 0 else 1
  }

  /** The voters among `members` whose ID is in `up`. */
  function UpVoters(members: seq<Member>, up: set<nat>): nat {
    if members == [] then 0
    else
      var last := members[|members| - 1];
      UpVoters(members[..|members| - 1], up) + if !last.isLearner && last.id in up then 1 else 0
  }

  /** A strict majority of the voters is running. */
  predicate HasQuorum(members: seq<Member>, up: set<nat>) {
    2 * UpVoters(members, up) > Voters(members)
  }

  // ---------------------------------------------------------------- counting

  lemma DropLast(members: seq<Member>, id: nat)
    requires members != []
    ensures var init, last := members[..|members| - 1], members[|members| - 1];
      Drop(members, id) == if last.id == id then Drop(init, id) else Drop(init, id) + [last]
  {
  }

  lemma {:induction false} DropDown(members: seq<Member>, id: nat, up: set<nat>)
    requires id !in up
    ensures UpVoters(Drop(members, id), up) == UpVoters(members, up)
  {
    if members != [] {
      var init, last := members[..|members| - 1], members[|members| - 1];
      assert members == init + [last];
      DropDown(init, id, up);
      hide Drop, Voters, UpVoters;
      DropLast(members, id);
      AppendCounts(init, last, up);
      AppendCounts(Drop(init, id), last, up);
    }
  }

  lemma {:induction false} DropVoters(members: seq<Member>, id: nat)
    ensures Voters(Drop(members, id)) <= Voters(members)
  {
    if members != [] {
      var init, last := members[..|members| - 1], members[|members| - 1];
      assert members == init + [last];
      DropVoters(init, id);
      hide Drop, Voters, UpVoters;
      DropLast(members, id);
      AppendCounts(init, last, {});
      AppendCounts(Drop(init, id), last, {});
    }
  }

  /** Removing a member that is not running keeps a quorum. */
  lemma RemoveDownKeepsQuorum(members: seq<Member>, id: nat, reply: Reply, up: set<nat>)
    requires HasQuorum(members, up) && id !in up
    ensures HasQuorum(Remove(members, id, reply), up)
    ensures UpVoters(Remove(members, id, reply), up) == UpVoters(members, up)
  {
    DropDown(members, id, up);
    DropVoters(members, id);
  }

  lemma {:induction false} AllUp(members: seq<Member>, up: set<nat>)
    requires forall m | m in members && !m.isLearner :: m.id in up
    ensures UpVoters(members, up) == Voters(members)
  {
    if members != [] {
      var init, last := members[..|members| - 1], members[|members| - 1];
      assert members == init + [last];
      AllUp(init, up);
    }
  }

  lemma {:induction false} UpVotersAreCounted(members: seq<Member>, me: Me, dead: set<string>, up: set<nat>)
    requires forall m | m in members :: (!m.isLearner && m.id in up) <==> RoleOf(m, me, dead) == Voter
    ensures UpVoters(members, up) == |WithRole(Voter, members, me, dead)|
  {
    if members != [] {
      var init, last := members[..|members| - 1], members[|members| - 1];
      assert members == init + [last];
      UpVotersAreCounted(init, me, dead, up);
    }
  }

  lemma AppendCounts(members: seq<Member>, m: Member, up: set<nat>)
    ensures Voters(members + [m]) == Voters(members) + if m.isLearner then 0 else 1
    ensures UpVoters(members + [m], up) == UpVoters(members, up) + if !m.isLearner && m.id in up then 1 else 0
  {
    assert (members + [m])[..|members|] == members;
  }

  // ---------------------------------------------------------------- the hypotheses

  /** Members to be removed and the pod itself are down, and every voter that will be counted is running. */
  ghost predicate CountsAreRight(members: seq<Member>, me: Me, dead: set<string>, up: set<nat>) {
    forall m | m in members ::
      match RoleOf(m, me, dead)
      case Self => m.id !in up
      case Doomed => m.id !in up
      case Learner => true
      case Voter => m.id in up
  }

  ghost predicate RemovalsWork(members: seq<Member>, me: Me, dead: set<string>, env: Env) {
    forall m | m in members && RoleOf(m, me, dead) == Doomed :: env.remove(m.id).TookEffect()
  }

  lemma VotingIsUpVoters(members: seq<Member>, me: Me, dead: set<string>, up: set<nat>)
    requires CountsAreRight(members, me, dead, up)
    ensures UpVoters(members, up) == ScanOf(members, me, dead).voting
  {
    hide IsSelf, HasDeadIP;
    UpVotersAreCounted(members, me, dead, up);
  }

  // ---------------------------------------------------------------- the configurations of a join

  /** The cluster once the pod's own entry, if any, has been asked to be removed; otherwise the local data is wiped. */
  function Left(purged: Site, id: nat, env: Env): Site {
    if id != 0 then RemoveMember(purged, id, env) else purged.(disk := None)
  }

  /** The cluster once a listed pod with data has asked for its promotion and, if that failed, for its removal. */
  function Promoted(purged: Site, scan: Scan, env: Env): Site {
    if !scan.myLearner then purged
    else
      var asked := PromoteLearner(purged, scan.myID, env);
      if Promotes(env) then asked else RemoveMember(asked, scan.myID, env)
  }

  /** The cluster just before etcd is started: every request that the pass makes before that has been answered. */
  function BeforeStart(s: Site, pod: Pod, dead: set<string>, env: Env): Site {
    var scan := ScanOf(s.members, pod.Me(), dead);
    var purged := PurgeAll(s, WithRole(Doomed, s.members, pod.Me(), dead), env);
    if scan.myID != 0 && s.disk.Some? then Promoted(purged, scan, env)
    else
      var removed := Left(purged, scan.myID, env);
      if (scan.myID != 0 && env.remove(scan.myID) != Accepted) || scan.voting == 0 then removed
      else AddMember(removed, pod.URLs(), scan.voting == 1, env)
  }

  /** Whether the pass asks for a promotion after starting etcd: of the member it has just added as a learner. */
  predicate PromotesAfterStart(s: Site, pod: Pod, dead: set<string>, env: Env) {
    var scan := ScanOf(s.members, pod.Me(), dead);
    var purged := PurgeAll(s, WithRole(Doomed, s.members, pod.Me(), dead), env);
    && !(scan.myID != 0 && s.disk.Some?) && !(scan.myID != 0 && env.remove(scan.myID) != Accepted)
    && scan.voting == 1 && env.start
    && AddReply(Left(purged, scan.myID, env), pod.URLs(), env) == Accepted
  }

  lemma {:induction false} PromotionSees(s: Site, t: Site, id: nat, env: Env, attempts: nat)
    requires t.members == s.members && t.configs == s.configs
    ensures var r, q := PromoteTimes(s, id, env, attempts), PromoteTimes(t, id, env, attempts);
      q.members == r.members && q.configs == r.configs
  {
    if attempts > 0 {
      PromotionSees(s, t, id, env, attempts - 1);
    }
  }

  function Attempts(env: Env): nat {
    var k := FirstAccepted(env.promote, 1);
    if k <= MAX_PROMOTE_ATTEMPTS then k else MAX_PROMOTE_ATTEMPTS
  }

  lemma FreshPassConfigs(s: Site, pod: Pod, voting: nat, env: Env)
    ensures var learner := voting == 1;
      var added := AddMember(s, pod.URLs(), learner, env);
      var r := AddMemberAndStart(s, pod, voting, env).site;
      if voting == 0 then r.configs == s.configs && r.members == s.members
      else if learner && env.start && AddReply(s, pod.URLs(), env) == Accepted then
        r.configs == PromoteLearner(added, env.newID, env).configs && r.members == PromoteLearner(added, env.newID, env).members
      else r.configs == added.configs && r.members == added.members
  {
    var added := AddMember(s, pod.URLs(), voting == 1, env);
    hide AddReply, AddMember, BuildClusterConfig, FirstAccepted;
    var up := Boot(added.(initial := ExistingState(BuildClusterConfig(added.members, pod.name))), Data(s.cluster, env.newID));
    PromotionSees(added, up, env.newID, env, Attempts(env));
  }

  /** Exactly the configurations that a pass goes through, and where in it etcd is started. */
  lemma PassGoesThrough(s: Site, pod: Pod, dead: set<string>, env: Env)
    requires env.list
    ensures var b, r := BeforeStart(s, pod, dead, env), JoinPass(s, pod, dead, env).site;
      if PromotesAfterStart(s, pod, dead, env) then
        r.configs == PromoteLearner(b, env.newID, env).configs && r.members == PromoteLearner(b, env.newID, env).members
      else r.configs == b.configs && r.members == b.members
  {
    hide IsSelf, WithRole, ScanOf, PurgeAll, AddReply, BuildClusterConfig, FirstAccepted, AddMemberAndStart, AddMember,
      PromoteLearner;
    var scan := ScanOf(s.members, pod.Me(), dead);
    var purged := PurgeAll(s, WithRole(Doomed, s.members, pod.Me(), dead), env);
    FreshPassConfigs(Left(purged, scan.myID, env), pod, scan.voting, env);
  }

  /** `r` reached its list from `s` through configurations that all have a quorum. */
  ghost predicate KeptQuorum(s: Site, r: Site, up: set<nat>) {
    s.configs <= r.configs && forall c | c in r.configs[|s.configs|..] :: HasQuorum(c, up)
  }

  lemma ConfigureKeepsQuorum(s: Site, r: Site, members: seq<Member>, up: set<nat>)
    requires KeptQuorum(s, r, up) && HasQuorum(members, up)
    ensures KeptQuorum(s, Configure(r, members), up)
  {
    hide HasQuorum;
    assert Configure(r, members).configs[|s.configs|..] == r.configs[|s.configs|..] + [members];
  }

  lemma {:induction false} PurgeKeepsQuorum(s: Site, targets: seq<Member>, env: Env, up: set<nat>)
    requires HasQuorum(s.members, up) && forall t | t in targets :: t.id !in up
    ensures var r := PurgeAll(s, targets, env);
      UpVoters(r.members, up) == UpVoters(s.members, up) && HasQuorum(r.members, up) && KeptQuorum(s, r, up)
  {
    if targets == [] {
      return;
    }
    var init, last := targets[..|targets| - 1], targets[|targets| - 1];
    assert targets == init + [last];
    PurgeKeepsQuorum(s, init, env, up);
    var before := PurgeAll(s, init, env);
    assert PurgeAll(s, targets, env) == RemoveMember(before, last.id, env);
    hide HasQuorum, UpVoters, KeptQuorum, PurgeAll, Remove;
    RemoveDownKeepsQuorum(before.members, last.id, env.remove(last.id), up);
    ConfigureKeepsQuorum(s, before, Remove(before.members, last.id, env.remove(last.id)), up);
  }

  /** When every removal works, the voters that are left are exactly the counted ones, and all of them run. */
  lemma OnlyCountedVotersRemain(members: seq<Member>, left: seq<Member>, me: Me, dead: set<string>, up: set<nat>)
    requires CountsAreRight(members, me, dead, up)
    requires forall m | m in left :: m in members && (RoleOf(m, me, dead) == Learner || RoleOf(m, me, dead) == Voter)
    requires UpVoters(left, up) == UpVoters(members, up)
    ensures Voters(left) == UpVoters(left, up) == ScanOf(members, me, dead).voting
  {
    VotingIsUpVoters(members, me, dead, up);
    AllUp(left, up);
  }

  /** The thresholds are tight: a voter may be added exactly when two are counted, a learner exactly when one is. */
  lemma AdditionKeepsQuorumIff(left: seq<Member>, m: Member, up: set<nat>)
    requires Voters(left) == UpVoters(left, up) && m.id !in up
    ensures HasQuorum(left + [m], up) <==> (if m.isLearner then Voters(left) >= 1 else Voters(left) > 1)
  {
    AppendCounts(left, m, up);
  }

  /** In general a voter may be added exactly when the running voters outnumber the dead ones left by two. */
  lemma VoterAdditionIff(left: seq<Member>, m: Member, up: set<nat>)
    requires m.id !in up && !m.isLearner
    ensures HasQuorum(left + [m], up) <==> UpVoters(left, up) > (Voters(left) - UpVoters(left, up)) + 1
  {
    AppendCounts(left, m, up);
  }

  /** The list that an addition is made to: no doomed member and no own entry is left. */
  lemma LeftBeforeAddition(s: Site, pod: Pod, dead: set<string>, env: Env, left: seq<Member>)
    requires RemovalsWork(s.members, pod.Me(), dead, env) && Tidy(s.members, pod.Me())
    requires var scan := ScanOf(s.members, pod.Me(), dead);
      var purged := Purge(s.members, WithRole(Doomed, s.members, pod.Me(), dead), env.remove);
      left == if scan.myID != 0 then Drop(purged, scan.myID) else purged
    ensures forall m | m in left ::
      m in s.members && (RoleOf(m, pod.Me(), dead) == Learner || RoleOf(m, pod.Me(), dead) == Voter)
  {
    hide IsSelf, HasDeadIP, MyLearner;
    var doomed := WithRole(Doomed, s.members, pod.Me(), dead);
    forall m | m in left ensures RoleOf(m, pod.Me(), dead) != Doomed && !IsSelf(m, pod.Me()) {
      assert RoleOf(m, pod.Me(), dead) == Doomed ==> m in doomed;
    }
  }

  lemma SelfIsDown(members: seq<Member>, me: Me, dead: set<string>, up: set<nat>)
    requires CountsAreRight(members, me, dead, up)
    ensures ScanOf(members, me, dead).myID == 0 || ScanOf(members, me, dead).myID !in up
    ensures forall t | t in WithRole(Doomed, members, me, dead) :: t.id !in up
  {
    hide MyLearner, IsSelf, HasDeadIP;
  }

  lemma FreshJoinKeepsQuorum(s: Site, pod: Pod, dead: set<string>, env: Env, up: set<nat>)
    requires HasQuorum(s.members, up) && env.newID !in up
    requires CountsAreRight(s.members, pod.Me(), dead, up)
    requires RemovalsWork(s.members, pod.Me(), dead, env) && Tidy(s.members, pod.Me())
    requires ScanOf(s.members, pod.Me(), dead).myID == 0 || s.disk.None?
    ensures KeptQuorum(s, BeforeStart(s, pod, dead, env), up)
  {
    var me := pod.Me();
    var scan := ScanOf(s.members, me, dead);
    var doomed := WithRole(Doomed, s.members, me, dead);
    hide IsSelf, WithRole, ScanOf, CountsAreRight, RemovalsWork, Tidy, HasQuorum, UpVoters, KeptQuorum, PurgeAll,
      AddMember, Pod.Me, Promoted;
    SelfIsDown(s.members, me, dead, up);
    PurgeKeepsQuorum(s, doomed, env, up);
    var purged := PurgeAll(s, doomed, env);
    LeftKeepsQuorum(s, purged, pod, dead, env, up);
  }

  lemma LeftKeepsQuorum(s: Site, purged: Site, pod: Pod, dead: set<string>, env: Env, up: set<nat>)
    requires env.newID !in up && CountsAreRight(s.members, pod.Me(), dead, up)
    requires RemovalsWork(s.members, pod.Me(), dead, env) && Tidy(s.members, pod.Me())
    requires purged == PurgeAll(s, WithRole(Doomed, s.members, pod.Me(), dead), env)
    requires HasQuorum(purged.members, up) && KeptQuorum(s, purged, up)
    requires UpVoters(purged.members, up) == UpVoters(s.members, up)
    requires ScanOf(s.members, pod.Me(), dead).myID !in up || ScanOf(s.members, pod.Me(), dead).myID == 0
    ensures var scan := ScanOf(s.members, pod.Me(), dead);
      var left := Left(purged, scan.myID, env);
      && KeptQuorum(s, left, up)
      && (!(scan.myID != 0 && env.remove(scan.myID) != Accepted) && scan.voting != 0 ==>
          KeptQuorum(s, AddMember(left, pod.URLs(), scan.voting == 1, env), up))
  {
    var scan := ScanOf(s.members, pod.Me(), dead);
    var left := Left(purged, scan.myID, env);
    hide IsSelf, WithRole, ScanOf, CountsAreRight, RemovalsWork, Tidy, HasQuorum, UpVoters, PurgeAll, Remove;
    if scan.myID != 0 {
      RemoveDownKeepsQuorum(purged.members, scan.myID, env.remove(scan.myID), up);
      ConfigureKeepsQuorum(s, purged, Remove(purged.members, scan.myID, env.remove(scan.myID)), up);
    }
    if !(scan.myID != 0 && env.remove(scan.myID) != Accepted) && scan.voting != 0 {
      LeftOfSite(s, pod, dead, env);
      OnlyCountedVotersRemain(s.members, left.members, pod.Me(), dead, up);
      AdditionOfSelf(s, left, pod, scan.voting == 1, env, up);
    }
  }

  lemma AdditionOfSelf(s: Site, removed: Site, pod: Pod, learner: bool, env: Env, up: set<nat>)
    requires Voters(removed.members) == UpVoters(removed.members, up) && env.newID !in up
    requires Voters(removed.members) >= 1 && (!learner ==> Voters(removed.members) > 1)
    requires KeptQuorum(s, removed, up)
    ensures KeptQuorum(s, AddMember(removed, pod.URLs(), learner, env), up)
  {
    AdditionKeepsQuorumIff(removed.members, NewMember(pod.URLs(), learner, env), up);
    assert HasQuorum(removed.members, up);
    hide HasQuorum, KeptQuorum;
    ConfigureKeepsQuorum(s, removed, AddMember(removed, pod.URLs(), learner, env).members, up);
  }

  lemma LeftOfSite(s: Site, pod: Pod, dead: set<string>, env: Env)
    requires RemovalsWork(s.members, pod.Me(), dead, env) && Tidy(s.members, pod.Me())
    ensures var scan := ScanOf(s.members, pod.Me(), dead);
      var purged := PurgeAll(s, WithRole(Doomed, s.members, pod.Me(), dead), env);
      scan.myID == 0 || env.remove(scan.myID) == Accepted ==>
        forall m | m in Left(purged, scan.myID, env).members ::
          m in s.members && (RoleOf(m, pod.Me(), dead) == Learner || RoleOf(m, pod.Me(), dead) == Voter)
  {
    hide IsSelf, WithRole, MyID, MyLearner, RemovalsWork, Tidy, RoleOf;
    var scan := ScanOf(s.members, pod.Me(), dead);
    var purged := PurgeAll(s, WithRole(Doomed, s.members, pod.Me(), dead), env);
    if scan.myID == 0 || env.remove(scan.myID) == Accepted {
      LeftBeforeAddition(s, pod, dead, env, Left(purged, scan.myID, env).members);
    }
  }

  // ---------------------------------------------------------------- promotions

  function LearnersNamed(members: seq<Member>, id: nat): nat {
    if members == [] then 0
    else
      var last := members[|members| - 1];
      LearnersNamed(members[..|members| - 1], id) + if last.isLearner && last.id == id then 1 else 0
  }

  lemma {:induction false} PromotionCounts(members: seq<Member>, id: nat, up: set<nat>)
    ensures Voters(SetVoter(members, id)) == Voters(members) + LearnersNamed(members, id)
    ensures UpVoters(SetVoter(members, id), up) == UpVoters(members, up) + if id in up then LearnersNamed(members, id) else 0
  {
    if members != [] {
      var init, last := members[..|members| - 1], members[|members| - 1];
      PromotionCounts(init, id, up);
      assert SetVoter(members, id)[..|members| - 1] == SetVoter(init, id);
    }
  }

  /** Promoting the one learner `id`: safe if it runs; if it does not, safe exactly when there is slack of two. */
  lemma PromotionKeepsQuorumIff(members: seq<Member>, id: nat, up: set<nat>)
    requires LearnersNamed(members, id) == 1 && HasQuorum(members, up)
    ensures HasQuorum(SetVoter(members, id), up)
       <==> id in up || UpVoters(members, up) > (Voters(members) - UpVoters(members, up)) + 1
  {
    PromotionCounts(members, id, up);
  }

  // ---------------------------------------------------------------- a sequence of promotion requests

  predicate TookEffectBy(env: Env, attempts: nat) {
    exists k | 1 <= k <= attempts :: env.promote(k).TookEffect()
  }

  lemma {:induction false} PromoteTimesMembers(s: Site, id: nat, env: Env, attempts: nat)
    ensures PromoteTimes(s, id, env, attempts).members
         == if TookEffectBy(env, attempts) then SetVoter(s.members, id) else s.members
  {
    if attempts > 0 {
      PromoteTimesMembers(s, id, env, attempts - 1);
      assert TookEffectBy(env, attempts) <==> TookEffectBy(env, attempts - 1) || env.promote(attempts).TookEffect();
      hide TookEffectBy;
      assert SetVoter(SetVoter(s.members, id), id) == SetVoter(s.members, id);
    }
  }

  lemma ConfigureQuorumIff(s: Site, r: Site, members: seq<Member>, up: set<nat>)
    requires s.configs <= r.configs
    ensures KeptQuorum(s, Configure(r, members), up) <==> KeptQuorum(s, r, up) && HasQuorum(members, up)
  {
    hide HasQuorum;
    var after := Configure(r, members).configs[|s.configs|..];
    assert after == r.configs[|s.configs|..] + [members];
    assert after[|after| - 1] == members && members in after;
    assert forall c | c in r.configs[|s.configs|..] :: c in after;
  }

  /** Promotion requests keep a quorum if and only if none takes effect or the promotion itself keeps it. */
  lemma {:induction false} PromotionsKeepQuorumIff(s: Site, b: Site, id: nat, env: Env, attempts: nat, up: set<nat>)
    requires KeptQuorum(s, b, up) && HasQuorum(b.members, up)
    ensures s.configs <= PromoteTimes(b, id, env, attempts).configs
    ensures KeptQuorum(s, PromoteTimes(b, id, env, attempts), up)
       <==> (TookEffectBy(env, attempts) ==> HasQuorum(SetVoter(b.members, id), up))
  {
    if attempts > 0 {
      PromotionsKeepQuorumIff(s, b, id, env, attempts - 1, up);
      PromoteTimesMembers(b, id, env, attempts);
      var before, after := PromoteTimes(b, id, env, attempts - 1), PromoteTimes(b, id, env, attempts);
      assert after == Configure(before, after.members);
      assert TookEffectBy(env, attempts - 1) ==> TookEffectBy(env, attempts);
      hide PromoteTimes, KeptQuorum, HasQuorum, TookEffectBy;
      ConfigureQuorumIff(s, before, after.members, up);
    }
  }

  // ---------------------------------------------------------------- the whole pass

  /** The cluster has a running majority, its list is in order, and the scan's view of who runs is right. */
  ghost predicate Counted(s: Site, pod: Pod, dead: set<string>, up: set<nat>) {
    && HasQuorum(s.members, up) && CountsAreRight(s.members, pod.Me(), dead, up)
    && Tidy(s.members, pod.Me()) && NoDup(s.members)
  }

  /** Removals of dead members take effect, and a member ID that is given out is nobody's. */
  ghost predicate Allowed(s: Site, pod: Pod, dead: set<string>, env: Env, up: set<nat>) {
    RemovalsWork(s.members, pod.Me(), dead, env) && env.newID !in up && forall m | m in s.members :: m.id != env.newID
  }

  /** Every configuration of the pass has a running majority; an added member runs from the start of its etcd on. */
  ghost predicate KeepsQuorum(s: Site, pod: Pod, dead: set<string>, env: Env, up: set<nat>) {
    env.list ==>
      var b := BeforeStart(s, pod, dead, env);
      KeptQuorum(s, b, up) && KeptQuorum(b, JoinPass(s, pod, dead, env).site, up + {env.newID})
  }

  /** The pod is a listed learner with data, and only one voter is counted: it is promoted before its etcd is started. */
  predicate PromotesUnstarted(s: Site, pod: Pod, dead: set<string>) {
    var scan := ScanOf(s.members, pod.Me(), dead);
    scan.myID != 0 && s.disk.Some? && scan.myLearner && scan.voting == 1
  }

  lemma AllVotersUp(members: seq<Member>, up: set<nat>)
    requires (forall m | m in members && !m.isLearner :: m.id in up) && Voters(members) >= 1
    ensures HasQuorum(members, up)
  {
    AllUp(members, up);
  }

  lemma NothingMore(r: Site, q: Site, up: set<nat>)
    requires r.configs == q.configs
    ensures KeptQuorum(r, q, up)
  {
    assert q.configs[|r.configs|..] == [];
  }

  /** The promotions after the start: the new member runs, so all voters do, before and after it is promoted. */
  lemma PromotionAfterStart(b: Site, id: nat, env: Env, up: set<nat>)
    requires (forall m | m in b.members && !m.isLearner :: m.id in up) && id in up && Voters(b.members) >= 1
    ensures KeptQuorum(b, PromoteLearner(b, id, env), up)
  {
    AllVotersUp(b.members, up);
    PromotionCounts(b.members, id, up);
    forall v | v in SetVoter(b.members, id) && !v.isLearner ensures v.id in up {
      var i :| 0 <= i < |b.members| && SetVoter(b.members, id)[i] == v;
      assert b.members[i] in b.members;
    }
    AllVotersUp(SetVoter(b.members, id), up);
    NothingMore(b, b, up);
    hide KeptQuorum, HasQuorum;
    PromotionsKeepQuorumIff(b, b, id, env, Attempts(env), up);
  }

  lemma AddedTo(s: Site, pod: Pod, dead: set<string>, env: Env)
    requires PromotesAfterStart(s, pod, dead, env)
    ensures var scan := ScanOf(s.members, pod.Me(), dead);
      var purged := PurgeAll(s, WithRole(Doomed, s.members, pod.Me(), dead), env);
      && scan.voting == 1 && (scan.myID == 0 || env.remove(scan.myID) == Accepted)
      && BeforeStart(s, pod, dead, env).members
         == Left(purged, scan.myID, env).members + [NewMember(pod.URLs(), true, env)]
  {
    hide IsSelf, WithRole, ScanOf, PurgeAll, Overlaps;
  }

  lemma LeftIsCounted(s: Site, pod: Pod, dead: set<string>, env: Env, up: set<nat>)
    requires Counted(s, pod, dead, up) && Allowed(s, pod, dead, env, up)
    ensures var scan := ScanOf(s.members, pod.Me(), dead);
      var purged := PurgeAll(s, WithRole(Doomed, s.members, pod.Me(), dead), env);
      var left := Left(purged, scan.myID, env).members;
      scan.myID == 0 || env.remove(scan.myID) == Accepted ==>
        && Voters(left) == scan.voting
        && forall m | m in left :: m in s.members && (!m.isLearner ==> m.id in up)
  {
    var scan := ScanOf(s.members, pod.Me(), dead);
    var purged := PurgeAll(s, WithRole(Doomed, s.members, pod.Me(), dead), env);
    var left := Left(purged, scan.myID, env).members;
    hide IsSelf, WithRole, ScanOf, HasQuorum, PurgeAll, Tidy, HasDeadIP, Left, Voters, UpVoters, RemovalsWork;
    if scan.myID == 0 || env.remove(scan.myID) == Accepted {
      LeftOfSite(s, pod, dead, env);
      PurgeLeaves(s, pod, dead, env, up);
      OnlyCountedVotersRemain(s.members, left, pod.Me(), dead, up);
    }
  }

  /** The list an addition has been made to holds voters that run, and the new learner. */
  lemma AddedToCountedVoters(s: Site, pod: Pod, dead: set<string>, env: Env, up: set<nat>)
    requires Counted(s, pod, dead, up) && Allowed(s, pod, dead, env, up) && PromotesAfterStart(s, pod, dead, env)
    ensures var b := BeforeStart(s, pod, dead, env);
      && (forall m | m in b.members && !m.isLearner :: m.id in up)
      && Voters(b.members) == 1 && LearnersNamed(b.members, env.newID) == 1
  {
    var scan := ScanOf(s.members, pod.Me(), dead);
    var purged := PurgeAll(s, WithRole(Doomed, s.members, pod.Me(), dead), env);
    var left, m := Left(purged, scan.myID, env).members, NewMember(pod.URLs(), true, env);
    AddedTo(s, pod, dead, env);
    LeftIsCounted(s, pod, dead, env, up);
    hide Counted, BeforeStart, PromotesAfterStart, ScanOf, PurgeAll, WithRole, Left, RemovalsWork, Voters, LearnersNamed;
    WithNewLearner(left, m, up);
  }

  lemma WithNewLearner(left: seq<Member>, m: Member, up: set<nat>)
    requires m.isLearner && forall x | x in left :: x.id != m.id && (!x.isLearner ==> x.id in up)
    ensures forall x | x in left + [m] && !x.isLearner :: x.id in up
    ensures Voters(left + [m]) == Voters(left) && LearnersNamed(left + [m], m.id) == 1
  {
    AppendCounts(left, m, up);
    NotNamed(left, m.id);
    assert (left + [m])[..|left|] == left;
  }

  lemma {:induction false} NotNamed(members: seq<Member>, id: nat)
    requires forall m | m in members :: m.id != id
    ensures LearnersNamed(members, id) == 0
  {
    if members != [] {
      NotNamed(members[..|members| - 1], id);
    }
  }

  /** Removing the dead and the pod's own old entry leaves as many running voters as there were. */
  lemma PurgeLeaves(s: Site, pod: Pod, dead: set<string>, env: Env, up: set<nat>)
    requires HasQuorum(s.members, up) && CountsAreRight(s.members, pod.Me(), dead, up)
    ensures var scan := ScanOf(s.members, pod.Me(), dead);
      var purged := PurgeAll(s, WithRole(Doomed, s.members, pod.Me(), dead), env);
      && HasQuorum(purged.members, up) && UpVoters(purged.members, up) == UpVoters(s.members, up)
      && UpVoters(Left(purged, scan.myID, env).members, up) == UpVoters(s.members, up)
      && KeptQuorum(s, purged, up)
  {
    var scan := ScanOf(s.members, pod.Me(), dead);
    var doomed := WithRole(Doomed, s.members, pod.Me(), dead);
    hide IsSelf, WithRole, ScanOf, CountsAreRight, HasQuorum, UpVoters, KeptQuorum, PurgeAll, Remove, Pod.Me;
    SelfIsDown(s.members, pod.Me(), dead, up);
    PurgeKeepsQuorum(s, doomed, env, up);
    var purged := PurgeAll(s, doomed, env);
    if scan.myID != 0 {
      RemoveDownKeepsQuorum(purged.members, scan.myID, env.remove(scan.myID), up);
    }
  }

  lemma FreshPassKeepsQuorum(s: Site, pod: Pod, dead: set<string>, env: Env, up: set<nat>)
    requires Counted(s, pod, dead, up) && Allowed(s, pod, dead, env, up) && env.list
    requires ScanOf(s.members, pod.Me(), dead).myID == 0 || s.disk.None?
    ensures KeepsQuorum(s, pod, dead, env, up)
  {
    var b, r, later := BeforeStart(s, pod, dead, env), JoinPass(s, pod, dead, env).site, up + {env.newID};
    FreshJoinKeepsQuorum(s, pod, dead, env, up);
    PassGoesThrough(s, pod, dead, env);
    if PromotesAfterStart(s, pod, dead, env) {
      AddedToCountedVoters(s, pod, dead, env, up);
      hide KeptQuorum, BeforeStart, JoinPass, Counted, Allowed, PromotesAfterStart;
      PromotionAfterStart(b, env.newID, env, later);
      SameFrom(b, PromoteLearner(b, env.newID, env), r, later);
    } else {
      hide KeptQuorum, BeforeStart, JoinPass, Counted, Allowed, PromotesAfterStart;
      NothingMore(b, r, later);
    }
  }

  lemma SameFrom(s: Site, r: Site, q: Site, up: set<nat>)
    requires r.configs == q.configs && KeptQuorum(s, r, up)
    ensures KeptQuorum(s, q, up)
  {
  }

  lemma {:induction false} DropKeepsDistinct(members: seq<Member>, id: nat)
    requires NoDup(members)
    ensures NoDup(Drop(members, id))
  {
    if members != [] {
      var init, last := members[..|members| - 1], members[|members| - 1];
      assert NoDup(init) && last !in init;
      DropKeepsDistinct(init, id);
      hide Drop;
      DropLast(members, id);
    }
  }

  lemma {:induction false} PurgeKeepsDistinct(s: Site, targets: seq<Member>, env: Env)
    requires NoDup(s.members)
    ensures NoDup(PurgeAll(s, targets, env).members)
  {
    if targets != [] {
      PurgeKeepsDistinct(s, targets[..|targets| - 1], env);
      hide NoDup, Drop;
      DropKeepsDistinct(PurgeAll(s, targets[..|targets| - 1], env).members, targets[|targets| - 1].id);
    }
  }

  lemma {:induction false} NamedOnce(members: seq<Member>, m: Member)
    requires NoDup(members) && m in members && m.isLearner && forall x | x in members :: x.id == m.id ==> x == m
    ensures LearnersNamed(members, m.id) == 1
  {
    var init, last := members[..|members| - 1], members[|members| - 1];
    if last == m {
      assert m !in init;
      NotNamed(init, m.id);
    } else {
      assert m in init;
      NamedOnce(init, m);
    }
  }

  /** A listed learner after the removals: once in the list, beside voters that all run. */
  lemma PurgedLearner(s: Site, pod: Pod, dead: set<string>, env: Env, up: set<nat>)
    requires Counted(s, pod, dead, up) && Allowed(s, pod, dead, env, up)
    requires ScanOf(s.members, pod.Me(), dead).myID != 0 && ScanOf(s.members, pod.Me(), dead).myLearner
    ensures var scan := ScanOf(s.members, pod.Me(), dead);
      var purged := PurgeAll(s, WithRole(Doomed, s.members, pod.Me(), dead), env).members;
      && Voters(purged) == UpVoters(purged, up) == scan.voting && scan.myID !in up
      && LearnersNamed(purged, scan.myID) == 1
  {
    var me, scan := pod.Me(), ScanOf(s.members, pod.Me(), dead);
    var doomed := WithRole(Doomed, s.members, me, dead);
    var purged := PurgeAll(s, doomed, env).members;
    var own := OwnLearner(s.members, me, dead);
    SelfIsDown(s.members, me, dead, up);
    PurgedRoles(s, pod, dead, env, own);
    PurgeLeaves(s, pod, dead, env, up);
    VotingIsUpVoters(s.members, me, dead, up);
    PurgeKeepsDistinct(s, doomed, env);
    hide IsSelf, HasDeadIP, ScanOf, WithRole, PurgeAll, HasQuorum, NoDup, Voters, UpVoters, LearnersNamed, Tidy;
    NamedOnce(purged, own);
    AllUp(purged, up);
  }

  lemma OwnLearner(members: seq<Member>, me: Me, dead: set<string>) returns (own: Member)
    requires Tidy(members, me) && ScanOf(members, me, dead).myID != 0 && ScanOf(members, me, dead).myLearner
    ensures own in members && IsSelf(own, me) && own.isLearner && own.id == ScanOf(members, me, dead).myID
    ensures forall m | m in members :: (IsSelf(m, me) || m.id == own.id) ==> m == own
  {
    hide IsSelf;
    own :| own in members && IsSelf(own, me) && own.isLearner;
    var named :| named in members && IsSelf(named, me) && named.id == ScanOf(members, me, dead).myID;
  }

  lemma PurgedRoles(s: Site, pod: Pod, dead: set<string>, env: Env, own: Member)
    requires RemovalsWork(s.members, pod.Me(), dead, env) && Tidy(s.members, pod.Me())
    requires own in s.members && IsSelf(own, pod.Me())
    requires forall m | m in s.members :: (IsSelf(m, pod.Me()) || m.id == own.id) ==> m == own
    ensures var purged := PurgeAll(s, WithRole(Doomed, s.members, pod.Me(), dead), env).members;
      && own in purged
      && forall m | m in purged :: m in s.members && (m == own || RoleOf(m, pod.Me(), dead) == Learner || RoleOf(m, pod.Me(), dead) == Voter)
  {
    hide IsSelf, HasDeadIP;
    var doomed := WithRole(Doomed, s.members, pod.Me(), dead);
    forall m | m in PurgeAll(s, doomed, env).members && m != own ensures RoleOf(m, pod.Me(), dead) != Doomed {
      assert RoleOf(m, pod.Me(), dead) == Doomed ==> m in doomed;
    }
    assert forall t | t in doomed :: t.id != own.id;
  }

  /** The branch with data keeps the quorum unless it promotes an unstarted learner beside a single voter. */
  lemma DataPassKeepsQuorumIff(s: Site, pod: Pod, dead: set<string>, env: Env, up: set<nat>)
    requires Counted(s, pod, dead, up) && Allowed(s, pod, dead, env, up) && env.list
    requires ScanOf(s.members, pod.Me(), dead).myID != 0 && s.disk.Some?
    ensures KeepsQuorum(s, pod, dead, env, up)
       <==> !(PromotesUnstarted(s, pod, dead) && TookEffectBy(env, Attempts(env)))
  {
    var scan := ScanOf(s.members, pod.Me(), dead);
    var purged := PurgeAll(s, WithRole(Doomed, s.members, pod.Me(), dead), env);
    var b, r := BeforeStart(s, pod, dead, env), JoinPass(s, pod, dead, env).site;
    PassGoesThrough(s, pod, dead, env);
    assert r.configs == b.configs && b == Promoted(purged, scan, env);
    NothingMore(b, r, up + {env.newID});
    PurgeLeaves(s, pod, dead, env, up);
    if scan.myLearner {
      PurgedLearner(s, pod, dead, env, up);
      hide JoinPass, BeforeStart, KeptQuorum, ScanOf, PurgeAll, WithRole, Counted, Allowed, Attempts, TookEffectBy;
      PromotedKeepsQuorumIff(s, purged, scan, env, up);
    }
  }

  lemma PromotedKeepsQuorumIff(s: Site, purged: Site, scan: Scan, env: Env, up: set<nat>)
    requires scan.myLearner && scan.myID !in up && KeptQuorum(s, purged, up) && HasQuorum(purged.members, up)
    requires Voters(purged.members) == UpVoters(purged.members, up) == scan.voting
    requires LearnersNamed(purged.members, scan.myID) == 1
    ensures KeptQuorum(s, Promoted(purged, scan, env), up) <==> !(scan.voting == 1 && TookEffectBy(env, Attempts(env)))
  {
    var id, asked := scan.myID, PromoteLearner(purged, scan.myID, env);
    assert asked == PromoteTimes(purged, id, env, Attempts(env)) && scan.voting >= 1;
    PromotionKeepsQuorumIff(purged.members, id, up);
    assert HasQuorum(SetVoter(purged.members, id), up) <==> scan.voting > 1;
    hide KeptQuorum, HasQuorum, TookEffectBy, Attempts, PromoteTimes, PromoteLearner, Promotes, SetVoter;
    PromotionsKeepQuorumIff(s, purged, id, env, Attempts(env), up);
    PromoteTimesMembers(purged, id, env, Attempts(env));
    if !Promotes(env) {
      if KeptQuorum(s, asked, up) {
        RemoveDownKeepsQuorum(asked.members, id, env.remove(id), up);
      }
      ConfigureQuorumIff(s, asked, Remove(asked.members, id, env.remove(id)), up);
    }
  }

  /**
   * From a counted cluster, a pass keeps a running majority in every configuration it goes through, if and only if it
   * does not promote an unstarted learner beside a single voter, or no such promotion takes effect.
   */
  lemma PassKeepsQuorumIff(s: Site, pod: Pod, dead: set<string>, env: Env, up: set<nat>)
    requires Counted(s, pod, dead, up) && Allowed(s, pod, dead, env, up)
    ensures KeepsQuorum(s, pod, dead, env, up)
       <==> !(env.list && PromotesUnstarted(s, pod, dead) && TookEffectBy(env, Attempts(env)))
  {
    hide Counted, Allowed, BeforeStart, JoinPass, KeptQuorum, TookEffectBy, Attempts, ScanOf;
    if env.list {
      if ScanOf(s.members, pod.Me(), dead).myID != 0 && s.disk.Some? {
        DataPassKeepsQuorumIff(s, pod, dead, env, up);
      } else {
        FreshPassKeepsQuorum(s, pod, dead, env, up);
      }
    }
  }

  lemma {:induction false} UnusedID(ids: set<nat>) returns (id: nat)
    ensures forall x | x in ids :: x < id
    decreases ids
  {
    if ids == {} {
      id := 0;
    } else {
      var x :| x in ids;
      id := UnusedID(ids - {x});
      assert forall y | y in ids :: y == x || y in ids - {x};
      id := if x < id then id else x + 1;
    }
  }

  function GivenIDs(members: seq<Member>): set<nat> {
    set m | m in members :: m.id
  }

  /** Whatever the surroundings answer, the quorum is kept, if and only if the pod is not such a learner. */
  lemma JoinKeepsQuorumIff(s: Site, pod: Pod, dead: set<string>, up: set<nat>)
    requires Counted(s, pod, dead, up)
    ensures (forall env | Allowed(s, pod, dead, env, up) :: KeepsQuorum(s, pod, dead, env, up))
       <==> !PromotesUnstarted(s, pod, dead)
  {
    hide Counted, KeepsQuorum, PromotesUnstarted;
    if PromotesUnstarted(s, pod, dead) {
      var id := UnusedID(up + GivenIDs(s.members));
      var env := Env(true, i => Accepted, Accepted, id, urls => urls, true, i => Accepted, true);
      assert forall m | m in s.members :: m.id in GivenIDs(s.members);
      assert Allowed(s, pod, dead, env, up);
      assert Attempts(env) == 1 && TookEffectBy(env, 1) by {
        assert env.promote(1).TookEffect() && FirstAccepted(env.promote, 1) == 1;
      }
      hide Allowed;
      PassKeepsQuorumIff(s, pod, dead, env, up);
    } else {
      hide Allowed;
      forall env | Allowed(s, pod, dead, env, up) ensures KeepsQuorum(s, pod, dead, env, up) {
        PassKeepsQuorumIff(s, pod, dead, env, up);
      }
    }
  }

  /**
   * After a promotion that failed although etcd was started, the new member is stopped again. What is left has a
   * running majority if and only if none of the failed promotions took effect.
   */
  lemma StoppedAfterFailureIff(s: Site, pod: Pod, dead: set<string>, env: Env, up: set<nat>)
    requires Counted(s, pod, dead, up) && Allowed(s, pod, dead, env, up) && env.list
    requires PromotesAfterStart(s, pod, dead, env) && !Promotes(env)
    ensures HasQuorum(JoinPass(s, pod, dead, env).site.members, up) <==> !TookEffectBy(env, MAX_PROMOTE_ATTEMPTS)
  {
    StoppedMembers(s, pod, dead, env, up);
    hide BeforeStart, JoinPass, PromotesAfterStart, Counted, FirstAccepted;
  }

  lemma StoppedMembers(s: Site, pod: Pod, dead: set<string>, env: Env, up: set<nat>)
    requires Counted(s, pod, dead, up) && Allowed(s, pod, dead, env, up) && env.list
    requires PromotesAfterStart(s, pod, dead, env) && !Promotes(env)
    ensures var b := BeforeStart(s, pod, dead, env).members;
      && HasQuorum(b, up) && !HasQuorum(SetVoter(b, env.newID), up)
      && JoinPass(s, pod, dead, env).site.members
         == if TookEffectBy(env, MAX_PROMOTE_ATTEMPTS) then SetVoter(b, env.newID) else b
  {
    var b := BeforeStart(s, pod, dead, env);
    PassGoesThrough(s, pod, dead, env);
    AddedToCountedVoters(s, pod, dead, env, up);
    assert PromoteLearner(b, env.newID, env) == PromoteTimes(b, env.newID, env, MAX_PROMOTE_ATTEMPTS);
    hide BeforeStart, JoinPass, Counted, PromotesAfterStart, Promotes, FirstAccepted;
    PromoteTimesMembers(b, env.newID, env, MAX_PROMOTE_ATTEMPTS);
    hide PromoteTimes, PromoteLearner;
    AllUp(b.members, up);
    PromotionCounts(b.members, env.newID, up);
  }

  /** Such a cluster, for every named pod: one running voter and the pod's own unstarted learner, whose data is there. */
  lemma UnstartedLearner(pod: Pod, other: string)
    requires other != pod.name
    ensures var members := [Member(1, other, [], false), Member(2, pod.name, [], true)];
      var s := Site(1, members, [], Some(Data(1, 2)), None, Unset);
      Counted(s, pod, {}, {1}) && PromotesUnstarted(s, pod, {})
  {
    var a, b, me := Member(1, other, [], false), Member(2, pod.name, [], true), pod.Me();
    TwoRoles(a, b, me);
    TwoCounts(a, b);
    hide Pod.Me, RoleOf, WithRole, Voters, UpVoters;
    assert forall m | m in [a, b] :: m == a || m == b;
  }

  lemma TwoRoles(a: Member, b: Member, me: Me)
    requires a.name != me.name && b.name == me.name && a.peerURLs == b.peerURLs == []
    requires !a.isLearner && b.isLearner && b.id != 0
    ensures RoleOf(a, me, {}) == Voter && RoleOf(b, me, {}) == Self && !IsSelf(a, me) && IsSelf(b, me)
    ensures ScanOf([a, b], me, {}) == Scan(b.id, true, 1)
  {
    hide WithRole;
    assert [a, b][..1] == [a] && [a][..0] == [];
    assert RoleOf(a, me, {}) == Voter && RoleOf(b, me, {}) == Self;
    hide RoleOf, HasDeadIP, IsSelf, PeerURLsMatch;
    TwoVoters(a, b, me);
  }

  lemma TwoVoters(a: Member, b: Member, me: Me)
    requires RoleOf(a, me, {}) == Voter && RoleOf(b, me, {}) == Self
    ensures WithRole(Voter, [a, b], me, {}) == [a]
  {
    hide RoleOf;
    assert [a, b][..1] == [a] && [a][..0] == [] && [] + [a] == [a];
    assert WithRole(Voter, [a], me, {}) == WithRole(Voter, [], me, {}) + [a];
  }

  lemma TwoCounts(a: Member, b: Member)
    requires !a.isLearner && b.isLearner
    ensures Voters([a, b]) == 1 && UpVoters([a, b], {a.id}) == 1
  {
    assert [] + [a] == [a] && [a] + [b] == [a, b];
    AppendCounts([], a, {a.id});
    AppendCounts([a], b, {a.id});
  }
}
