/** What one pass through the join code does, as functions on the things it reads and writes. */
module Joining {
  import opened Base
  import opened Text
  import opened Members
  import opened InitialCluster

  const MAX_PROMOTE_ATTEMPTS: nat := 100

  /** A data directory: the cluster and the member whose data it holds. */
  datatype Data = Data(cluster: nat, member: nat)

  /** The answers the surroundings give to one pass: the etcd servers, the operating system, the child process. */
  datatype Env = Env(
    list: bool,                                // the member list is returned
    remove: nat -> Reply,                      // MemberRemove, by member ID
    add: Reply,                                // MemberAdd or MemberAddAsLearner
    newID: nat,                                // the ID an added member is given
    arrange: seq<string> -> seq<string>,       // the order in which the server stores peer URLs
    start: bool,                               // the etcd binary can be started
    promote: nat -> Reply,                     // MemberPromote, by attempt number from 1
    sigterm: bool)                             // a SIGTERM ends the child at once

  /** The environment given to etcd: whether it founds a cluster or joins one, with the initial-cluster entries. */
  datatype Launch = Unset | NewState(entries: seq<string>) | ExistingState(entries: seq<string>)

  /**
   * The cluster the client talks to and the pod's own disk, child process and environment.
   * `configs` lists every configuration the cluster went through, one after each membership request.
   */
  datatype Site = Site(
    cluster: nat, members: seq<Member>, configs: seq<seq<Member>>,
    disk: Option<Data>, child: Option<Data>, initial: Launch)

  datatype Outcome =
    | Started
    | ListFailed
    | SelfRemovalFailed
    | NoVoters
    | AddFailed
    | StartFailed
    | PromoteFailed            // after the start: the child was sent a SIGTERM
    | PromoteFailedCleanedUp   // before a start on existing data: member and data removed

  datatype Pass = Pass(site: Site, outcome: Outcome)

  datatype Pod = Pod(name: string, ips: seq<string>, port: string) {
    function URLs(): seq<string> { PeerURLs(ips, port) }
    function Me(): Me { Members.Me(name, ToSet(URLs())) }
  }

  // ---------------------------------------------------------------- single requests

  function Configure(s: Site, members: seq<Member>): Site {
    s.(members := members, configs := s.configs + [members])
  }

  function RemoveMember(s: Site, id: nat, env: Env): Site {
    Configure(s, Remove(s.members, id, env.remove(id)))
  }

  function PurgeAll(s: Site, targets: seq<Member>, env: Env): (r: Site)
    ensures r.members == Purge(s.members, targets, env.remove)
    ensures r == s.(members := r.members, configs := r.configs)
  {
    if targets == [] then s
    else RemoveMember(PurgeAll(s, targets[..|targets| - 1], env), targets[|targets| - 1].id, env)
  }

  lemma PurgeOneMore(s: Site, targets: seq<Member>, target: Member, env: Env)
    ensures PurgeAll(s, targets + [target], env) == RemoveMember(PurgeAll(s, targets, env), target.id, env)
    ensures targets + [] == targets
  {
    var all := targets + [target];
    assert all[..|all| - 1] == targets;
  }

  function AddReply(s: Site, urls: seq<string>, env: Env): Reply {
    if Overlaps(s.members, env.arrange(urls)) then Rejected else env.add
  }

  function NewMember(urls: seq<string>, learner: bool, env: Env): Member {
    Member(env.newID, "", env.arrange(urls), learner)
  }

  function AddMember(s: Site, urls: seq<string>, learner: bool, env: Env): Site {
    Configure(s, if AddReply(s, urls, env).TookEffect() then s.members + [NewMember(urls, learner, env)] else s.members)
  }

  function PromoteOnce(s: Site, id: nat, reply: Reply): Site {
    Configure(s, if reply.TookEffect() then SetVoter(s.members, id) else s.members)
  }

  /** The first accepted attempt from `attempt` on, or one more than the allowed number. */
  function FirstAccepted(promote: nat -> Reply, attempt: nat): (k: nat)
    requires 1 <= attempt <= MAX_PROMOTE_ATTEMPTS + 1
    ensures attempt <= k <= MAX_PROMOTE_ATTEMPTS + 1
    ensures k <= MAX_PROMOTE_ATTEMPTS ==> promote(k) == Accepted
    ensures forall i | attempt <= i < k :: promote(i) != Accepted
    decreases MAX_PROMOTE_ATTEMPTS + 1 - attempt
  {
    if attempt == MAX_PROMOTE_ATTEMPTS + 1 || promote(attempt) == Accepted then attempt
    else FirstAccepted(promote, attempt + 1)
  }

  function PromoteTimes(s: Site, id: nat, env: Env, attempts: nat): (r: Site)
    ensures r == s.(members := r.members, configs := r.configs)
    ensures r.members == s.members || r.members == SetVoter(s.members, id)
  {
    if attempts == 0 then s else PromoteOnce(PromoteTimes(s, id, env, attempts - 1), id, env.promote(attempts))
  }

  predicate Promotes(env: Env) {
    FirstAccepted(env.promote, 1) <= MAX_PROMOTE_ATTEMPTS
  }

  function PromoteLearner(s: Site, id: nat, env: Env): Site {
    var k := FirstAccepted(env.promote, 1);
    PromoteTimes(s, id, env, if k <= MAX_PROMOTE_ATTEMPTS then k else MAX_PROMOTE_ATTEMPTS)
  }

  /** Starting etcd: on the data that is there, or else bootstrapping `newData`. */
  function Boot(s: Site, newData: Data): Site {
    var d := if s.disk.Some? then s.disk.value else newData;
    s.(disk := Some(d), child := Some(d))
  }

  // ---------------------------------------------------------------- the branches of a join

  function AddMemberAndStart(s: Site, pod: Pod, voting: nat, env: Env): Pass {
    if voting == 0 then Pass(s, NoVoters)
    else
      var learner := voting == 1;
      var added := AddMember(s, pod.URLs(), learner, env);
      if AddReply(s, pod.URLs(), env) != Accepted then Pass(added, AddFailed)
      else
        var ready := added.(initial := ExistingState(BuildClusterConfig(added.members, pod.name)));
        if !env.start then Pass(ready, StartFailed)
        else
          var up := Boot(ready, Data(s.cluster, env.newID));
          if !learner then Pass(up, Started)
          else
            var asked := PromoteLearner(up, env.newID, env);
            if Promotes(env) then Pass(asked, Started)
            else Pass(if env.sigterm then asked.(child := None) else asked, PromoteFailed)
  }

  function JoinWithData(s: Site, id: nat, learner: bool, env: Env): Pass
    requires s.disk.Some?
  {
    var asked := if learner then PromoteLearner(s, id, env) else s;
    if learner && !Promotes(env) then Pass(RemoveMember(asked, id, env).(disk := None), PromoteFailedCleanedUp)
    else if !env.start then Pass(asked, StartFailed)
    else Pass(asked.(child := s.disk), Started)
  }

  function JoinWithoutData(s: Site, id: nat, pod: Pod, voting: nat, env: Env): Pass {
    var removed := RemoveMember(s, id, env);
    if env.remove(id) != Accepted then Pass(removed, SelfRemovalFailed)
    else AddMemberAndStart(removed, pod, voting, env)
  }

  function HandleMemberJoin(s: Site, scan: Scan, pod: Pod, env: Env): Pass {
    if scan.myID != 0 then
      if s.disk.Some? then JoinWithData(s, scan.myID, scan.myLearner, env)
      else JoinWithoutData(s, scan.myID, pod, scan.voting, env)
    else AddMemberAndStart(s.(disk := None), pod, scan.voting, env)
  }

  function JoinPass(s: Site, pod: Pod, dead: set<string>, env: Env): Pass {
    if !env.list then Pass(s, ListFailed)
    else
      var doomed := WithRole(Doomed, s.members, pod.Me(), dead);
      HandleMemberJoin(PurgeAll(s, doomed, env), ScanOf(s.members, pod.Me(), dead), pod, env)
  }

  // ---------------------------------------------------------------- founding a cluster

  /** The single member of a cluster that this pod founds. */
  function FounderMember(pod: Pod, env: Env): Member {
    Member(env.newID, pod.name, env.arrange(pod.URLs()), false)
  }

  /** InitializeNewCluster: the local data is wiped first, whether or not etcd can then be started. */
  function InitPass(s: Site, pod: Pod, newCluster: nat, env: Env): Pass {
    var wiped := s.(disk := None, initial := NewState(BuildPeerEndpoints(pod.name, pod.ips, pod.port)));
    if !env.start then Pass(wiped, StartFailed)
    else
      var d := Some(Data(newCluster, env.newID));
      Pass(Site(newCluster, [FounderMember(pod, env)], [], d, d, wiped.initial), Started)
  }

  // ---------------------------------------------------------------- the three-way decision of the main loop

  datatype Decision = JoinReady | RetryNow | WaitForPodZero | FoundNew

  function Decide(anyReady: bool, anyNotReady: bool, index: nat): (d: Decision)
    ensures d == JoinReady <==> anyReady
    ensures d == RetryNow <==> !anyReady && anyNotReady
    ensures d == FoundNew <==> !anyReady && !anyNotReady && index == 0
  {
    if anyReady then JoinReady
    else if anyNotReady then RetryNow
    else if index != 0 then WaitForPodZero
    else FoundNew
  }
}
