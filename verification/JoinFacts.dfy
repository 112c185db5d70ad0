/** What every pass keeps, whatever the surroundings answer. */
module JoinFacts {
  import opened Base
  import opened Members
  import opened Joining
  import opened InitialCluster

  /** IDs are non-zero and name one member each, and at most one member is this pod. */
  ghost predicate Tidy(members: seq<Member>, me: Me) {
    && (forall m | m in members :: m.id != 0)
    && (forall a, b | a in members && b in members && a.id == b.id :: a == b)
    && (forall a, b | a in members && b in members && IsSelf(a, me) && IsSelf(b, me) :: a.id == b.id)
  }

  /** If the cluster lists this pod and the pod has data, it is the data of exactly that member. */
  ghost predicate DataFits(s: Site, me: Me) {
    forall m | m in s.members && IsSelf(m, me) && s.disk.Some? :: s.disk == Some(Data(s.cluster, m.id))
  }

  /** `m` was in the list, possibly as a learner that is now a voter. */
  ghost predicate Derived(m: Member, members: seq<Member>) {
    m in members || (!m.isLearner && m.(isLearner := true) in members)
  }

  ghost predicate Added(m: Member, pod: Pod, env: Env) {
    m.id == env.newID && m.name == "" && m.peerURLs == env.arrange(pod.URLs())
  }

  /** The server stores the URLs it is given, in any order, under an ID it never gave out before. */
  ghost predicate Honest(env: Env, pod: Pod, members: seq<Member>) {
    && multiset(env.arrange(pod.URLs())) == multiset(pod.URLs())
    && env.newID != 0
    && forall m | m in members :: m.id != env.newID
  }

  ghost predicate ValidPod(pod: Pod) {
    pod.name != "" && pod.ips != [] && NoDup(pod.ips)
  }

  /** What a pass keeps whatever data the pod has: the list, and a disk that stays, is wiped or holds the new member's data. */
  ghost predicate ListKept(s: Site, r: Site, pod: Pod, env: Env) {
    && r.cluster == s.cluster
    && (forall m | m in r.members :: Derived(m, s.members) || Added(m, pod, env))
    && Tidy(r.members, pod.Me())
    && (r.disk.None? || r.disk == s.disk || r.disk == Some(Data(s.cluster, env.newID)))
    && (r.child.Some? ==> r.child == r.disk)
  }

  /** What it keeps besides if the pod's data fits the cluster. */
  ghost predicate Kept(s: Site, r: Site, pod: Pod, env: Env) {
    && ListKept(s, r, pod, env)
    && DataFits(r, pod.Me())
    && (r.child.Some? ==> r.disk.value.cluster == s.cluster)
  }

  ghost predicate Orderly(s: Site, pod: Pod, env: Env) {
    ValidPod(pod) && Tidy(s.members, pod.Me()) && Honest(env, pod, s.members) && s.child.None?
  }

  ghost predicate Calm(s: Site, pod: Pod, env: Env) {
    Orderly(s, pod, env) && DataFits(s, pod.Me())
  }

  lemma AddedIsSelf(m: Member, pod: Pod, env: Env)
    requires ValidPod(pod) && Added(m, pod, env)
    requires multiset(env.arrange(pod.URLs())) == multiset(pod.URLs())
    ensures IsSelf(m, pod.Me())
  {
    OwnAdditionRecognised(m, pod.ips, pod.port, pod.Me());
  }

  function Voting(m: Member, id: nat): Member {
    if m.id == id then m.(isLearner := false) else m
  }

  lemma SetVoterSource(members: seq<Member>, id: nat, v: Member) returns (m: Member)
    requires v in SetVoter(members, id)
    ensures m in members && v == Voting(m, id)
  {
    var i :| 0 <= i < |members| && SetVoter(members, id)[i] == v;
    m := members[i];
  }

  lemma SetVoterKeeps(members: seq<Member>, id: nat, me: Me)
    requires Tidy(members, me)
    ensures Tidy(SetVoter(members, id), me)
    ensures forall v | v in SetVoter(members, id) ::
      Derived(v, members) && exists m :: m in members && v == Voting(m, id)
  {
    var after := SetVoter(members, id);
    forall v | v in after
      ensures v.id != 0 && Derived(v, members)
      ensures exists m :: m in members && v == Voting(m, id)
    {
      var m := SetVoterSource(members, id, v);
    }
    forall v, w | v in after && w in after
      ensures v.id == w.id ==> v == w
      ensures IsSelf(v, me) && IsSelf(w, me) ==> v.id == w.id
    {
      var m := SetVoterSource(members, id, v);
      var n := SetVoterSource(members, id, w);
    }
  }

  lemma AddKeeps(s: Site, pod: Pod, learner: bool, env: Env)
    requires Calm(s, pod, env) && s.disk.None?
    requires forall m | m in s.members :: !IsSelf(m, pod.Me())
    ensures var r := AddMember(s, pod.URLs(), learner, env);
      && Tidy(r.members, pod.Me())
      && (forall m | m in r.members :: m in s.members || Added(m, pod, env))
      && (forall m | m in r.members && IsSelf(m, pod.Me()) :: m.id == env.newID)
  {
    AddedIsSelf(NewMember(pod.URLs(), learner, env), pod, env);
    var r := AddMember(s, pod.URLs(), learner, env);
    assert forall m | m in r.members :: m in s.members || m == NewMember(pod.URLs(), learner, env);
  }

  /** Promoting any member and stopping the child keep what was kept so far. */
  lemma PromotionKept(s: Site, up: Site, r: Site, pod: Pod, id: nat, env: Env)
    requires Kept(s, up, pod, env)
    requires r.members == up.members || r.members == SetVoter(up.members, id)
    requires r.cluster == up.cluster && r.disk == up.disk && (r.child.None? || r.child == up.child)
    ensures Kept(s, r, pod, env)
  {
    hide IsSelf;
    SetVoterKeeps(up.members, id, pod.Me());
    forall v | v in r.members
      ensures Derived(v, s.members) || Added(v, pod, env)
      ensures IsSelf(v, pod.Me()) && r.disk.Some? ==> r.disk == Some(Data(r.cluster, v.id))
    {
      if v !in up.members {
        var m := SetVoterSource(up.members, id, v);
        SameSelf(m, v, pod.Me());
      }
    }
  }

  lemma SameSelf(m: Member, v: Member, me: Me)
    requires v.name == m.name && v.peerURLs == m.peerURLs
    ensures IsSelf(v, me) <==> IsSelf(m, me)
  {
  }

  lemma AddAndStartKeeps(s: Site, pod: Pod, voting: nat, env: Env)
    requires Calm(s, pod, env) && env.sigterm && s.disk.None?
    requires forall m | m in s.members :: !IsSelf(m, pod.Me())
    ensures Kept(s, AddMemberAndStart(s, pod, voting, env).site, pod, env)
  {
    hide IsSelf, AddMember, Honest, ValidPod;
    var learner := voting == 1;
    AddKeeps(s, pod, learner, env);
    var added := AddMember(s, pod.URLs(), learner, env);
    AddKeepsRest(s, pod, learner, env);
    var ready := added.(initial := ExistingState(BuildClusterConfig(added.members, pod.name)));
    var up := Boot(ready, Data(s.cluster, env.newID));
    assert Kept(s, added, pod, env) && Kept(s, up, pod, env);
    var asked := PromoteLearner(up, env.newID, env);
    hide Kept;
    PromotionKept(s, up, asked, pod, env.newID, env);
    PromotionKept(s, up, asked.(child := None), pod, env.newID, env);
  }

  lemma AddKeepsRest(s: Site, pod: Pod, learner: bool, env: Env)
    ensures var r := AddMember(s, pod.URLs(), learner, env);
      r == s.(members := r.members, configs := r.configs)
  {
  }

  lemma WithDataKeeps(s: Site, pod: Pod, id: nat, learner: bool, env: Env)
    requires Calm(s, pod, env) && s.disk == Some(Data(s.cluster, id))
    ensures Kept(s, JoinWithData(s, id, learner, env).site, pod, env)
  {
    assert Kept(s, s, pod, env) && Kept(s, s.(child := s.disk), pod, env);
    hide IsSelf;
    PromotionKept(s, s, PromoteLearner(s, id, env), pod, id, env);
  }

  lemma PurgeIsCalm(s: Site, pod: Pod, targets: seq<Member>, env: Env)
    requires Calm(s, pod, env)
    ensures Calm(PurgeAll(s, targets, env), pod, env)
    ensures forall m | m in PurgeAll(s, targets, env).members :: m in s.members
  {
    hide IsSelf;
  }

  /** What is kept from a site with fewer members and perhaps no data is kept from the original. */
  lemma KeptFromLess(s: Site, t: Site, r: Site, pod: Pod, env: Env)
    requires Kept(t, r, pod, env) && t.cluster == s.cluster && (t.disk.None? || t.disk == s.disk)
    requires forall m | m in t.members :: m in s.members
    ensures Kept(s, r, pod, env)
  {
    hide Tidy, DataFits, Added;
  }

  lemma HandleKeeps(s: Site, scan: Scan, pod: Pod, env: Env)
    requires Calm(s, pod, env) && env.sigterm
    requires scan.myID == 0 ==> forall m | m in s.members :: !IsSelf(m, pod.Me())
    requires scan.myID != 0 && s.disk.Some? ==> s.disk == Some(Data(s.cluster, scan.myID))
    requires forall m | m in s.members && IsSelf(m, pod.Me()) :: m.id == scan.myID
    ensures Kept(s, HandleMemberJoin(s, scan, pod, env).site, pod, env)
  {
    hide IsSelf, AddMemberAndStart, JoinWithData;
    if scan.myID == 0 {
      var t := s.(disk := None);
      AddAndStartKeeps(t, pod, scan.voting, env);
      KeptFromLess(s, t, AddMemberAndStart(t, pod, scan.voting, env).site, pod, env);
    } else if s.disk.Some? {
      WithDataKeeps(s, pod, scan.myID, scan.myLearner, env);
    } else {
      var t := RemoveMember(s, scan.myID, env);
      if env.remove(scan.myID) == Accepted {
        AddAndStartKeeps(t, pod, scan.voting, env);
        KeptFromLess(s, t, AddMemberAndStart(t, pod, scan.voting, env).site, pod, env);
      }
    }
  }

  lemma JoinKeeps(s: Site, pod: Pod, dead: set<string>, env: Env)
    requires Calm(s, pod, env) && env.sigterm
    ensures Kept(s, JoinPass(s, pod, dead, env).site, pod, env)
  {
    if env.list {
      var scan := ScanOf(s.members, pod.Me(), dead);
      var doomed := WithRole(Doomed, s.members, pod.Me(), dead);
      if scan.myID != 0 {
        var own :| own in s.members && IsSelf(own, pod.Me()) && own.id == scan.myID;
      }
      hide IsSelf, HandleMemberJoin, PurgeAll;
      PurgeIsCalm(s, pod, doomed, env);
      HandleKeeps(PurgeAll(s, doomed, env), scan, pod, env);
      KeptFromLess(s, PurgeAll(s, doomed, env), JoinPass(s, pod, dead, env).site, pod, env);
    }
  }

  lemma AddClusterStays(s: Site, pod: Pod, voting: nat, env: Env)
    ensures AddMemberAndStart(s, pod, voting, env).site.cluster == s.cluster
  {
    hide AddReply, BuildClusterConfig, Promotes, FirstAccepted, Pod.URLs;
  }

  lemma JoinClusterStays(s: Site, pod: Pod, dead: set<string>, env: Env)
    ensures JoinPass(s, pod, dead, env).site.cluster == s.cluster
  {
    hide WithRole, ScanOf, AddMemberAndStart, Promotes;
    var scan := ScanOf(s.members, pod.Me(), dead);
    var purged := PurgeAll(s, WithRole(Doomed, s.members, pod.Me(), dead), env);
    AddClusterStays(purged.(disk := None), pod, scan.voting, env);
    AddClusterStays(RemoveMember(purged, scan.myID, env), pod, scan.voting, env);
  }

  // ---------------------------------------------------------------- data that need not fit

  lemma DropIsTidy(members: seq<Member>, id: nat, reply: Reply, me: Me)
    requires Tidy(members, me)
    ensures Tidy(Remove(members, id, reply), me) && forall m | m in Remove(members, id, reply) :: m in members
  {
    hide IsSelf;
  }

  /** The branch with data never looks at what data it is. */
  lemma WithAnyDataKeeps(s: Site, pod: Pod, id: nat, learner: bool, env: Env)
    requires Tidy(s.members, pod.Me()) && s.child.None? && s.disk.Some?
    ensures ListKept(s, JoinWithData(s, id, learner, env).site, pod, env)
  {
    hide IsSelf, Tidy, Promotes, Added;
    var asked := PromoteLearner(s, id, env);
    SetVoterKeeps(s.members, id, pod.Me());
    DropIsTidy(asked.members, id, env.remove(id), pod.Me());
    assert forall m | m in s.members :: Derived(m, s.members);
  }

  lemma WipedFirst(s: Site, pod: Pod, dead: set<string>, env: Env)
    requires env.list && (ScanOf(s.members, pod.Me(), dead).myID == 0 || s.disk.None?)
    ensures JoinPass(s.(disk := None), pod, dead, env) == JoinPass(s, pod, dead, env)
  {
    hide ScanOf, WithRole, AddMemberAndStart, JoinWithData;
    var doomed := WithRole(Doomed, s.members, pod.Me(), dead);
    PurgeSees(s, doomed, env);
  }

  lemma {:induction false} PurgeSees(s: Site, targets: seq<Member>, env: Env)
    ensures PurgeAll(s.(disk := None), targets, env) == PurgeAll(s, targets, env).(disk := None)
  {
    if targets != [] {
      PurgeSees(s, targets[..|targets| - 1], env);
    }
  }

  /** Every pass keeps the list and the disk in order, whatever cluster the pod's data is of. */
  lemma AnyJoinKeeps(s: Site, pod: Pod, dead: set<string>, env: Env)
    requires Orderly(s, pod, env) && env.sigterm
    ensures ListKept(s, JoinPass(s, pod, dead, env).site, pod, env)
  {
    if env.list {
      var scan := ScanOf(s.members, pod.Me(), dead);
      var t := s.(disk := None);
      assert Calm(t, pod, env);
      var doomed := WithRole(Doomed, s.members, pod.Me(), dead);
      hide IsSelf, ScanOf, WithRole, AddMemberAndStart, JoinWithData, PurgeAll, Tidy, Honest, Derived, Added;
      if scan.myID == 0 || s.disk.None? {
        WipedFirst(s, pod, dead, env);
        hide JoinPass;
        JoinKeeps(t, pod, dead, env);
      } else {
        var purged := PurgeAll(s, doomed, env);
        PurgeSees(s, doomed, env);
        PurgeIsCalm(t, pod, doomed, env);
        WithAnyDataKeeps(purged, pod, scan.myID, scan.myLearner, env);
        var r := JoinWithData(purged, scan.myID, scan.myLearner, env).site;
        assert JoinPass(s, pod, dead, env).site == r;
        hide JoinPass, HandleMemberJoin, ListKept;
        FromPurged(s, purged, r, pod, env);
      }
    }
  }

  lemma FromPurged(s: Site, purged: Site, r: Site, pod: Pod, env: Env)
    requires ListKept(purged, r, pod, env) && purged.cluster == s.cluster && purged.disk == s.disk
    requires forall m | m in purged.members :: m in s.members
    ensures ListKept(s, r, pod, env)
  {
    hide Tidy, Added;
  }
}
