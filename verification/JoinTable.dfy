/**
 * What a pass comes to, case by case, in terms of the member list it read and the answers it got: its outcome, the
 * data and the child it leaves, and the initial cluster that etcd reads from its environment.
 */
module JoinTable {
  import opened Base
  import opened Text
  import opened Members
  import opened InitialCluster
  import opened Joining

  // ---------------------------------------------------------------- the members that are left

  /** The list without the members of the given IDs. */
  function Without(members: seq<Member>, gone: set<nat>): (r: seq<Member>)
    ensures forall m :: m in r <==> m in members && m.id !in gone
  {
    if members == [] then []
    else
      var init, last := members[..|members| - 1], members[|members| - 1];
      assert members == init + [last];
      Without(init, gone) + if last.id in gone then [] else [last]
  }

  /** The IDs of the listed members with a dead IP in a URL, other than the pod, whose removal takes effect. */
  function Purged(members: seq<Member>, me: Me, dead: set<string>, env: Env): set<nat> {
    set m | m in members && !IsSelf(m, me) && HasDeadIP(m, dead) && env.remove(m.id).TookEffect() :: m.id
  }

  /** The list before an addition: after the removals of dead members and of the pod's own entry. */
  function Remaining(s: Site, pod: Pod, dead: set<string>, env: Env): seq<Member> {
    var own := MyID(s.members, pod.Me());
    Without(s.members, Purged(s.members, pod.Me(), dead, env) + if own != 0 then {own} else {})
  }

  lemma WithoutLast(members: seq<Member>, gone: set<nat>)
    requires members != []
    ensures var init, last := members[..|members| - 1], members[|members| - 1];
      && Without(members, gone) == if last.id in gone then Without(init, gone) else Without(init, gone) + [last]
  {
  }

  lemma DropOfMore(init: seq<Member>, last: Member, id: nat)
    ensures Drop(init + [last], id) == if last.id == id then Drop(init, id) else Drop(init, id) + [last]
  {
    var members := init + [last];
    assert members[..|members| - 1] == init && members[|members| - 1] == last;
  }

  lemma {:induction false} WithoutMore(members: seq<Member>, gone: set<nat>, id: nat)
    ensures Drop(Without(members, gone), id) == Without(members, gone + {id})
  {
    if members != [] {
      var init, last := members[..|members| - 1], members[|members| - 1];
      WithoutLast(members, gone);
      WithoutLast(members, gone + {id});
      DropOfMore(Without(init, gone), last, id);
      hide Without, Drop;
      WithoutMore(init, gone, id);
    }
  }

  lemma {:induction false} WithoutNone(members: seq<Member>)
    ensures Without(members, {}) == members
  {
    if members != [] {
      WithoutLast(members, {});
      hide Without;
      WithoutNone(members[..|members| - 1]);
      assert members == members[..|members| - 1] + [members[|members| - 1]];
    }
  }

  function GoneOf(targets: seq<Member>, env: Env): set<nat> {
    set t | t in targets && env.remove(t.id).TookEffect() :: t.id
  }

  lemma {:induction false} PurgeIsWithout(s: Site, targets: seq<Member>, env: Env)
    ensures PurgeAll(s, targets, env).members == Without(s.members, GoneOf(targets, env))
  {
    if targets == [] {
      WithoutNone(s.members);
      assert GoneOf(targets, env) == {};
    } else {
      var init, last := targets[..|targets| - 1], targets[|targets| - 1];
      assert targets == init + [last];
      PurgeIsWithout(s, init, env);
      WithoutMore(s.members, GoneOf(init, env), last.id);
      assert GoneOf(targets, env) == GoneOf(init, env) + if env.remove(last.id).TookEffect() then {last.id} else {};
      assert GoneOf(init, env) + {} == GoneOf(init, env);
    }
  }

  lemma DoomedAreDead(members: seq<Member>, me: Me, dead: set<string>, m: Member)
    ensures m in WithRole(Doomed, members, me, dead) <==> m in members && !IsSelf(m, me) && HasDeadIP(m, dead)
  {
    hide IsSelf, HasDeadIP, WithRole;
  }

  lemma GoneArePurged(members: seq<Member>, me: Me, dead: set<string>, env: Env)
    ensures GoneOf(WithRole(Doomed, members, me, dead), env) == Purged(members, me, dead, env)
  {
    hide IsSelf, HasDeadIP, WithRole, RoleOf;
    forall m ensures m in WithRole(Doomed, members, me, dead)
                 <==> m in members && !IsSelf(m, me) && HasDeadIP(m, dead) {
      DoomedAreDead(members, me, dead, m);
    }
  }

  lemma DoomedArePurged(s: Site, pod: Pod, dead: set<string>, env: Env)
    ensures PurgeAll(s, WithRole(Doomed, s.members, pod.Me(), dead), env).members
         == Without(s.members, Purged(s.members, pod.Me(), dead, env))
  {
    hide *;
    PurgeIsWithout(s, WithRole(Doomed, s.members, pod.Me(), dead), env);
    GoneArePurged(s.members, pod.Me(), dead, env);
  }

  // ---------------------------------------------------------------- the outcome

  ghost predicate PromotionAccepted(env: Env) {
    exists k :: 1 <= k <= 100 && env.promote(k) == Accepted
  }

  lemma PromotesIff(env: Env)
    ensures Promotes(env) <==> PromotionAccepted(env)
  {
  }

  /** The pod finds an own entry and has data. */
  predicate OnData(s: Site, pod: Pod) {
    MyID(s.members, pod.Me()) != 0 && s.disk.Some?
  }

  /** The listed members that vote, other than the pod and those with a dead IP in a URL. */
  function VotersAmong(members: seq<Member>, me: Me, dead: set<string>): nat {
    if members == [] then 0
    else
      var last := members[|members| - 1];
      VotersAmong(members[..|members| - 1], me, dead)
      + if !last.isLearner && !IsSelf(last, me) && !HasDeadIP(last, dead) then 1 else 0
  }

  function Voting(s: Site, pod: Pod, dead: set<string>): nat {
    VotersAmong(s.members, pod.Me(), dead)
  }

  lemma {:induction false} VotersAreCounted(members: seq<Member>, me: Me, dead: set<string>)
    ensures |WithRole(Voter, members, me, dead)| == VotersAmong(members, me, dead)
  {
    hide IsSelf, HasDeadIP;
    if members != [] {
      VotersAreCounted(members[..|members| - 1], me, dead);
    }
  }

  /** The outcome of adding the pod to a cluster that lists `left`. */
  ghost function AdditionOutcome(left: seq<Member>, urls: seq<string>, voting: nat, env: Env): Outcome {
    if voting == 0 then NoVoters
    else if env.add != Accepted || exists m, u :: m in left && u in m.peerURLs && u in env.arrange(urls) then AddFailed
    else if !env.start then StartFailed
    else if voting == 1 && !PromotionAccepted(env) then PromoteFailed
    else Started
  }

  lemma AdditionIs(s: Site, pod: Pod, voting: nat, env: Env)
    requires s.disk.None? && s.child.None?
    ensures var r := AddMemberAndStart(s, pod, voting, env);
      && r.outcome == AdditionOutcome(s.members, pod.URLs(), voting, env)
      && r.site.disk == (if r.outcome == Started || r.outcome == PromoteFailed then Some(Data(s.cluster, env.newID)) else None)
      && r.site.child == (if r.outcome == PromoteFailed && env.sigterm then None else r.site.disk)
      && r.site.initial == if r.outcome == NoVoters || r.outcome == AddFailed then s.initial
           else ExistingState(BuildClusterConfig(s.members + [NewMember(pod.URLs(), voting == 1, env)], pod.name))
  {
    PromotesIff(env);
    hide BuildClusterConfig, Promotes, PromotionAccepted, PromoteTimes, FirstAccepted;
  }

  /** Every outcome, data directory and child of a join, from the list that was read and the answers. */
  lemma JoinTable(s: Site, pod: Pod, dead: set<string>, env: Env)
    requires s.child.None?
    ensures var r, own := JoinPass(s, pod, dead, env), MyID(s.members, pod.Me());
      if !env.list then r == Pass(s, ListFailed)
      else if OnData(s, pod) then
        if MyLearner(s.members, pod.Me()) && !PromotionAccepted(env) then
          r.outcome == PromoteFailedCleanedUp && r.site.disk == r.site.child == None
        else
          && r.outcome == (if env.start then Started else StartFailed)
          && r.site.disk == s.disk && r.site.child == if env.start then s.disk else None
      else if own != 0 && env.remove(own) != Accepted then
        r.outcome == SelfRemovalFailed && r.site.disk == r.site.child == None
      else
        && r.outcome == AdditionOutcome(Remaining(s, pod, dead, env), pod.URLs(), Voting(s, pod, dead), env)
        && r.site.disk == (if r.outcome == Started || r.outcome == PromoteFailed then Some(Data(s.cluster, env.newID)) else None)
        && r.site.child == (if r.outcome == PromoteFailed && env.sigterm then None else r.site.disk)
  {
    if env.list && OnData(s, pod) {
      OnDataIs(s, pod, dead, env);
    } else if env.list {
      FreshIs(s, pod, dead, env);
    }
  }

  lemma OnDataIs(s: Site, pod: Pod, dead: set<string>, env: Env)
    requires s.child.None? && env.list && OnData(s, pod)
    ensures var r := JoinPass(s, pod, dead, env);
      && r.outcome == (if MyLearner(s.members, pod.Me()) && !PromotionAccepted(env) then PromoteFailedCleanedUp
                       else if env.start then Started else StartFailed)
      && r.site.disk == (if r.outcome == PromoteFailedCleanedUp then None else s.disk)
      && r.site.child == (if r.outcome == Started then s.disk else None)
      && r.site.initial == s.initial
  {
    PromotesIff(env);
    hide WithRole, MyID, MyLearner, Promotes, PromotionAccepted, PromoteTimes, FirstAccepted;
  }

  /** The site on which an addition is tried: the removals are done, and the directory is empty. */
  function Cleared(s: Site, pod: Pod, dead: set<string>, env: Env): (t: Site)
    ensures t.cluster == s.cluster && t.child == s.child && t.initial == s.initial
  {
    var purged := PurgeAll(s, WithRole(Doomed, s.members, pod.Me(), dead), env);
    var own := MyID(s.members, pod.Me());
    if own == 0 then purged.(disk := None) else RemoveMember(purged, own, env)
  }

  lemma ClearedLists(s: Site, pod: Pod, dead: set<string>, env: Env)
    requires var own := MyID(s.members, pod.Me()); own == 0 || env.remove(own) == Accepted
    ensures Cleared(s, pod, dead, env).members == Remaining(s, pod, dead, env)
  {
    hide PurgeAll, WithRole, Purged, MyID, Without, Drop, Pod.Me;
    DoomedArePurged(s, pod, dead, env);
    OwnGoes(s.members, Purged(s.members, pod.Me(), dead, env), MyID(s.members, pod.Me()));
  }

  lemma OwnGoes(members: seq<Member>, gone: set<nat>, own: nat)
    ensures (if own == 0 then Without(members, gone) else Drop(Without(members, gone), own))
         == Without(members, gone + if own != 0 then {own} else {})
  {
    WithoutMore(members, gone, own);
    hide *;
    assert gone + {} == gone;
  }

  lemma FreshAdds(s: Site, pod: Pod, dead: set<string>, env: Env)
    requires s.child.None? && env.list && !OnData(s, pod)
    ensures var own, t := MyID(s.members, pod.Me()), Cleared(s, pod, dead, env);
      && JoinPass(s, pod, dead, env) == (if own != 0 && env.remove(own) != Accepted then Pass(t, SelfRemovalFailed)
                                         else AddMemberAndStart(t, pod, Voting(s, pod, dead), env))
      && t.disk.None? && t.child.None?
  {
    hide PurgeAll, WithRole, MyID, MyLearner, AddMemberAndStart, JoinWithData, Drop, Pod.Me, VotersAmong;
    VotersAreCounted(s.members, pod.Me(), dead);
  }

  lemma FreshIs(s: Site, pod: Pod, dead: set<string>, env: Env)
    requires s.child.None? && env.list && !OnData(s, pod)
    ensures var r, own := JoinPass(s, pod, dead, env), MyID(s.members, pod.Me());
      var left := Remaining(s, pod, dead, env);
      if own != 0 && env.remove(own) != Accepted then
        r.outcome == SelfRemovalFailed && r.site.disk == r.site.child == None && r.site.initial == s.initial
      else
        && r.outcome == AdditionOutcome(left, pod.URLs(), Voting(s, pod, dead), env)
        && r.site.disk == (if r.outcome == Started || r.outcome == PromoteFailed then Some(Data(s.cluster, env.newID)) else None)
        && r.site.child == (if r.outcome == PromoteFailed && env.sigterm then None else r.site.disk)
        && r.site.initial == if r.outcome == NoVoters || r.outcome == AddFailed then s.initial
             else ExistingState(BuildClusterConfig(left + [NewMember(pod.URLs(), Voting(s, pod, dead) == 1, env)], pod.name))
  {
    FreshAdds(s, pod, dead, env);
    var t := Cleared(s, pod, dead, env);
    hide JoinPass, Cleared, Remaining, Voting, MyID, AddMemberAndStart, AdditionOutcome, BuildClusterConfig, OnData, Pod.Me, Pod.URLs;
    if MyID(s.members, pod.Me()) == 0 || env.remove(MyID(s.members, pod.Me())) == Accepted {
      ClearedLists(s, pod, dead, env);
      AdditionIs(t, pod, Voting(s, pod, dead), env);
    }
  }

  // ---------------------------------------------------------------- the member list afterwards

  /** Some promotion request that the pass makes takes effect, whatever it was answered. */
  ghost predicate PromotionTookEffect(env: Env) {
    exists k :: 1 <= k <= 100 && env.promote(k) != Rejected
  }

  lemma {:induction false} PromoteTimesLists(s: Site, id: nat, env: Env, attempts: nat)
    ensures PromoteTimes(s, id, env, attempts).members
         == if exists k :: 1 <= k <= attempts && env.promote(k) != Rejected then SetVoter(s.members, id) else s.members
  {
    if attempts > 0 {
      PromoteTimesLists(s, id, env, attempts - 1);
      assert SetVoter(SetVoter(s.members, id), id) == SetVoter(s.members, id);
    }
  }

  lemma PromoteLists(s: Site, id: nat, env: Env)
    ensures PromoteLearner(s, id, env).members
         == if PromotionTookEffect(env) then SetVoter(s.members, id) else s.members
  {
    var k := FirstAccepted(env.promote, 1);
    var attempts := if k <= MAX_PROMOTE_ATTEMPTS then k else MAX_PROMOTE_ATTEMPTS;
    PromoteTimesLists(s, id, env, attempts);
    hide PromoteTimes, SetVoter, FirstAccepted;
    assert k <= 100 ==> env.promote(k) != Rejected;
  }

  /** The list after an addition to `left` with this outcome. */
  ghost function ListAfterAddition(left: seq<Member>, urls: seq<string>, voting: nat, env: Env): seq<Member> {
    if voting == 0 || env.add == Rejected || exists m, u :: m in left && u in m.peerURLs && u in env.arrange(urls) then left
    else
      var all := left + [Member(env.newID, "", env.arrange(urls), voting == 1)];
      if voting == 1 && env.add == Accepted && env.start && PromotionTookEffect(env) then SetVoter(all, env.newID) else all
  }

  lemma AdditionLists(s: Site, pod: Pod, voting: nat, env: Env)
    ensures AddMemberAndStart(s, pod, voting, env).site.members == ListAfterAddition(s.members, pod.URLs(), voting, env)
  {
    hide BuildClusterConfig, Promotes, PromotionTookEffect, PromoteLearner, FirstAccepted, SetVoter;
    var added := AddMember(s, pod.URLs(), voting == 1, env);
    var up := Boot(added.(initial := ExistingState(BuildClusterConfig(added.members, pod.name))), Data(s.cluster, env.newID));
    PromoteLists(up, env.newID, env);
  }

  /** Every member list that a join leaves, from the list that was read and the answers. */
  lemma ListTable(s: Site, pod: Pod, dead: set<string>, env: Env)
    requires s.child.None?
    ensures var after, own := JoinPass(s, pod, dead, env).site.members, MyID(s.members, pod.Me());
      var purged := Without(s.members, Purged(s.members, pod.Me(), dead, env));
      if !env.list then after == s.members
      else if OnData(s, pod) then
        var asked := if MyLearner(s.members, pod.Me()) && PromotionTookEffect(env) then SetVoter(purged, own) else purged;
        after == if MyLearner(s.members, pod.Me()) && !PromotionAccepted(env) && env.remove(own) != Rejected
                 then Drop(asked, own) else asked
      else if own != 0 && env.remove(own) != Accepted then
        after == if env.remove(own) == Lost then Drop(purged, own) else purged
      else
        after == ListAfterAddition(Remaining(s, pod, dead, env), pod.URLs(), Voting(s, pod, dead), env)
  {
    if env.list && OnData(s, pod) {
      OnDataLists(s, pod, dead, env);
    } else if env.list {
      FreshLists(s, pod, dead, env);
    }
  }

  lemma OnDataLists(s: Site, pod: Pod, dead: set<string>, env: Env)
    requires env.list && OnData(s, pod)
    ensures var after, own := JoinPass(s, pod, dead, env).site.members, MyID(s.members, pod.Me());
      var purged := Without(s.members, Purged(s.members, pod.Me(), dead, env));
      var asked := if MyLearner(s.members, pod.Me()) && PromotionTookEffect(env) then SetVoter(purged, own) else purged;
      after == if MyLearner(s.members, pod.Me()) && !PromotionAccepted(env) && env.remove(own) != Rejected
               then Drop(asked, own) else asked
  {
    hide WithRole, MyID, MyLearner, Promotes, PromotionAccepted, PromotionTookEffect, PromoteLearner, PurgeAll, Without,
      Purged, Drop, SetVoter, Pod.Me;
    DoomedArePurged(s, pod, dead, env);
    PromotesIff(env);
    PromoteLists(PurgeAll(s, WithRole(Doomed, s.members, pod.Me(), dead), env), MyID(s.members, pod.Me()), env);
  }

  lemma FreshLists(s: Site, pod: Pod, dead: set<string>, env: Env)
    requires s.child.None? && env.list && !OnData(s, pod)
    ensures var after, own := JoinPass(s, pod, dead, env).site.members, MyID(s.members, pod.Me());
      var purged := Without(s.members, Purged(s.members, pod.Me(), dead, env));
      if own != 0 && env.remove(own) != Accepted then
        after == if env.remove(own) == Lost then Drop(purged, own) else purged
      else
        after == ListAfterAddition(Remaining(s, pod, dead, env), pod.URLs(), Voting(s, pod, dead), env)
  {
    hide WithRole, MyID, JoinPass, AddMemberAndStart, ListAfterAddition, PurgeAll, Without, Purged, Drop, Pod.Me, Pod.URLs,
      OnData, Remaining, Voting;
    FreshAdds(s, pod, dead, env);
    var own, t := MyID(s.members, pod.Me()), Cleared(s, pod, dead, env);
    if own != 0 && env.remove(own) != Accepted {
      DoomedArePurged(s, pod, dead, env);
    } else {
      ClearedLists(s, pod, dead, env);
      AdditionLists(t, pod, Voting(s, pod, dead), env);
    }
  }

  // ---------------------------------------------------------------- what etcd reads

  /** etcd reads its initial cluster from the environment. */
  function ReadUnder(launch: Launch, name: string): seq<string> {
    if launch.Unset? then [] else URLsIn(Parse(Join(launch.entries, ',')), name)
  }

  /** The pass added a member, whatever came of its start. */
  ghost predicate AddedMember(s: Site, pod: Pod, dead: set<string>, env: Env) {
    var o := JoinPass(s, pod, dead, env).outcome;
    !OnData(s, pod) && (o == Started || o == StartFailed || o == PromoteFailed)
  }

  /**
   * An etcd that is started for an added member is told to join, and reads under each name exactly the URLs of the
   * members left after the removals and, under the pod's own name, of the new member as the server stored them. A pass
   * that adds nobody leaves the environment as it was.
   */
  lemma EtcdReadsTheNewList(s: Site, pod: Pod, dead: set<string>, env: Env, name: string)
    requires s.child.None? && Readable(s, pod, dead, env)
    ensures var launch, left := JoinPass(s, pod, dead, env).site.initial, Remaining(s, pod, dead, env);
      if !AddedMember(s, pod, dead, env) then launch == s.initial
      else
        && launch.ExistingState?
        && ReadUnder(launch, name)
           == URLsUnder(name, left, pod.name) + if name == pod.name then env.arrange(pod.URLs()) else []
  {
    hide JoinPass, Remaining, Voting, BuildClusterConfig, OnData, Pod.Me, Pod.URLs, SeparatorFree, MyID,
      MyLearner, PromotionAccepted, ReadUnder, URLsUnder;
    JoinTable(s, pod, dead, env);
    if env.list && OnData(s, pod) {
      OnDataIs(s, pod, dead, env);
    } else if env.list {
      FreshIs(s, pod, dead, env);
      NewListIsRead(Remaining(s, pod, dead, env), pod, Voting(s, pod, dead) == 1, env, name);
    }
  }

  lemma NewListIsRead(left: seq<Member>, pod: Pod, learner: bool, env: Env, name: string)
    requires SeparatorFree(left, pod.name)
    requires ',' !in pod.name && '=' !in pod.name && forall u | u in env.arrange(pod.URLs()) :: ',' !in u
    ensures ReadUnder(ExistingState(BuildClusterConfig(left + [NewMember(pod.URLs(), learner, env)], pod.name)), name)
         == URLsUnder(name, left, pod.name) + if name == pod.name then env.arrange(pod.URLs()) else []
  {
    hide BuildClusterConfig, Parse, Pod.URLs, Join;
    var m := NewMember(pod.URLs(), learner, env);
    assert NameFor(m, pod.name) == pod.name && m.peerURLs == env.arrange(pod.URLs());
    assert SeparatorFree(left + [m], pod.name);
    ParseOfWritten(left + [m], pod.name, name);
    assert (left + [m])[..|left|] == left;
  }

  /** The new list can be read: names and URLs have no separators in them. */
  ghost predicate Readable(s: Site, pod: Pod, dead: set<string>, env: Env) {
    && SeparatorFree(Remaining(s, pod, dead, env), pod.name)
    && ',' !in pod.name && '=' !in pod.name && forall u | u in env.arrange(pod.URLs()) :: ',' !in u
  }

  /** So the pod reads its own entry as the server stored it, if nobody who is left is unnamed or bears its name. */
  lemma EtcdReadsItself(s: Site, pod: Pod, dead: set<string>, env: Env)
    requires s.child.None? && AddedMember(s, pod, dead, env) && Readable(s, pod, dead, env)
    requires forall m | m in Remaining(s, pod, dead, env) :: m.name != "" && m.name != pod.name
    ensures ReadUnder(JoinPass(s, pod, dead, env).site.initial, pod.name) == env.arrange(pod.URLs())
  {
    hide JoinPass, Remaining, SeparatorFree, AddedMember, ReadUnder;
    EtcdReadsTheNewList(s, pod, dead, env, pod.name);
    NoURLsUnder(Remaining(s, pod, dead, env), pod.name, pod.name);
  }

  /** And each other member that is left with exactly its own URLs, if its name is its own. */
  lemma EtcdReadsTheOthers(s: Site, pod: Pod, dead: set<string>, env: Env, i: nat)
    requires s.child.None? && AddedMember(s, pod, dead, env) && Readable(s, pod, dead, env)
    requires var left := Remaining(s, pod, dead, env);
      && i < |left| && left[i].name != "" && left[i].name != pod.name
      && forall j | 0 <= j < |left| && j != i :: left[j].name != left[i].name
    ensures var m := Remaining(s, pod, dead, env)[i];
      ReadUnder(JoinPass(s, pod, dead, env).site.initial, m.name) == m.peerURLs
  {
    hide JoinPass, Remaining, SeparatorFree, AddedMember, ReadUnder;
    EtcdReadsTheNewList(s, pod, dead, env, Remaining(s, pod, dead, env)[i].name);
    URLsUnderOne(Remaining(s, pod, dead, env), pod.name, i);
  }

  // ---------------------------------------------------------------- founding

  /** A founding starts on no data: old data is gone in any case, and what is there afterwards is the new cluster's. */
  lemma FoundingTable(s: Site, pod: Pod, newCluster: nat, env: Env)
    ensures var r := InitPass(s, pod, newCluster, env);
      if env.start then
        && r.outcome == Started && r.site.cluster == newCluster
        && r.site.members == [Member(env.newID, pod.name, env.arrange(pod.URLs()), false)]
        && r.site.disk == r.site.child == Some(Data(newCluster, env.newID))
      else
        && r.outcome == StartFailed && r.site.disk == None
        && r.site.cluster == s.cluster && r.site.members == s.members && r.site.child == s.child
  {
    hide BuildPeerEndpoints;
  }

  /** The founding etcd is told to found, and reads exactly the pod's own URLs under the pod's name and nobody else. */
  lemma FounderReadsItself(s: Site, pod: Pod, newCluster: nat, env: Env, name: string)
    requires ',' !in pod.name && '=' !in pod.name && ',' !in pod.port && forall ip | ip in pod.ips :: ',' !in ip
    ensures var launch := InitPass(s, pod, newCluster, env).site.initial;
      && launch.NewState?
      && (if name != pod.name then ReadUnder(launch, name) == []
          else
            && |ReadUnder(launch, name)| == |pod.ips|
            && forall i | 0 <= i < |pod.ips| :: ReadUnder(launch, name)[i] == "https://" + pod.ips[i] + ":" + pod.port)
  {
    hide Parse, Join, BuildPeerEndpoints, URLsIn;
    FoundingTextIsRead(pod.name, pod.ips, pod.port, name);
  }

  lemma OwnURLsAreCommaFree(ips: seq<string>, port: string)
    requires ',' !in port && forall ip | ip in ips :: ',' !in ip
    ensures forall u | u in PeerURLs(ips, port) :: ',' !in u
  {
    forall u | u in PeerURLs(ips, port) ensures ',' !in u {
      var i :| 0 <= i < |ips| && u == PeerURL(ips[i], port);
      assert ',' !in "https://" && ',' !in ":";
    }
  }

  lemma URLsUnderSingle(m: Member, podName: string, name: string)
    requires m.name == podName
    ensures URLsUnder(name, [m], podName) == if name == podName then m.peerURLs else []
  {
    assert [m][..0] == [];
    assert URLsUnder(name, [], podName) == [] && [] + m.peerURLs == m.peerURLs;
  }

  lemma FoundingTextIsRead(podName: string, ips: seq<string>, port: string, name: string)
    requires ',' !in podName && '=' !in podName && ',' !in port && forall ip | ip in ips :: ',' !in ip
    ensures URLsIn(Parse(Join(BuildPeerEndpoints(podName, ips, port), ',')), name)
         == if name == podName then PeerURLs(ips, port) else []
  {
    hide Parse, Join, BuildClusterConfig, BuildPeerEndpoints, URLsUnder, PeerURLs, URLsIn;
    var m := Member(0, podName, PeerURLs(ips, port), false);
    FoundingFormAgrees(podName, ips, port, m);
    OwnURLsAreCommaFree(ips, port);
    ParseOfWritten([m], podName, name);
    URLsUnderSingle(m, podName, name);
  }
}
