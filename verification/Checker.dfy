/** The brain-split checker that pod 0 runs beside a cluster it founded. */
module Checker {
  import opened Base
  import opened Members
  import opened Discovery

  datatype Verdict =
    | LocalNotReady
    | ReadError
    | NoOtherNodes
    | NoHealthyNodes
    | Verified
    | SplitFound

  /** The answer of one endpoint to a member list request. */
  datatype Answer = Answer(clusterID: nat, memberIDs: seq<nat>)

  /** What one tick can see: the local etcd, the node directory, the probes and the endpoints' answers. */
  datatype View = View(
    localCluster: nat, localMember: nat,          // 0 when not available
    dir: Option<seq<Entry>>,                      // None when the directory cannot be read
    health: string -> Health,                     // by endpoint
    answer: string -> Option<Answer>)             // by endpoint; None when the request fails

  /** net.JoinHostPort: an address with a colon is put in brackets. */
  function JoinHostPort(host: string, port: string): string {
    if ':' in host then "[" + host + "]:" + port else host + ":" + port
  }

  /** The position of the last colon, or -1. */
  function LastColon(s: string): (i: int)
    ensures -1 <= i < |s|
  {
    if s == "" then -1 else if s[|s| - 1] == ':' then |s| - 1 else LastColon(s[..|s| - 1])
  }

  /** The host of an endpoint: what stands before the last colon, without its brackets. */
  function HostOf(endpoint: string): string {
    var i := LastColon(endpoint);
    if i < 0 then ""
    else if i > 1 && endpoint[0] == '[' && endpoint[i - 1] == ']' then endpoint[1..i - 1]
    else endpoint[..i]
  }

  lemma {:induction false} LastColonBeforePort(host: string, port: string)
    requires ':' !in port
    ensures LastColon(host + ":" + port) == |host|
  {
    var s := host + ":" + port;
    if port != "" {
      var init := port[..|port| - 1];
      LastColonBeforePort(host, init);
      assert s[..|s| - 1] == host + ":" + init;
      assert s[|s| - 1] == port[|port| - 1] && port[|port| - 1] in port;
    }
  }

  /** The host is read back, and its own colons stand in brackets (section 3.2.2 of RFC 3986). */
  lemma HostIsReadBack(host: string, port: string)
    requires ':' !in port && '[' !in host
    ensures HostOf(JoinHostPort(host, port)) == host
    ensures ':' in host ==> JoinHostPort(host, port)[0] == '[' && JoinHostPort(host, port)[|host| + 1] == ']'
  {
    var h := if ':' in host then "[" + host + "]" else host;
    assert JoinHostPort(host, port) == h + ":" + port;
    LastColonBeforePort(h, port);
    assert (h + ":" + port)[..|h|] == h;
    assert h != "" ==> (h + ":" + port)[0] == h[0];
    assert host != "" ==> host[0] in host;
  }

  // ---------------------------------------------------------------- the local etcd

  /** The answer of the local etcd, or None: its cluster ID, and the ID of the first member with the pod's name, or 0. */
  method GetLocalClusterInfo(clusterID: nat, members: Option<seq<Member>>, podName: string)
    returns (cluster: nat, member: nat)
    ensures members.None? ==> cluster == member == 0
    ensures members.Some? ==> cluster == clusterID
    ensures members.Some? && (forall m | m in members.value :: m.name != podName) ==> member == 0
    ensures members.Some? && (exists m :: m in members.value && m.name == podName) ==> exists k ::
      && 0 <= k < |members.value| && members.value[k].name == podName && member == members.value[k].id
      && forall j | 0 <= j < k :: members.value[j].name != podName
  {
    if members.None? {
      return 0, 0;
    }
    cluster, member := clusterID, 0;
    var list := members.value;
    for i := 0 to |list|
      invariant cluster == clusterID && member == 0
      invariant forall j | 0 <= j < i :: list[j].name != podName
    {
      if list[i].name == podName {
        member := list[i].id;
        assert list[i] in list;
        break;
      }
    }
  }

  // ---------------------------------------------------------------- which endpoints are compared

  predicate Usable(ip: string, myIPs: set<string>, port: string, health: string -> Health) {
    ip !in myIPs && health(JoinHostPort(ip, port)) == HealthHealthy
  }

  /** The first usable address of a node, if any. */
  function FirstUsable(ips: seq<string>, myIPs: set<string>, port: string, health: string -> Health): (r: Option<string>)
    ensures r.Some? ==> r.value in ips && Usable(r.value, myIPs, port, health)
    ensures r.None? ==> forall ip | ip in ips :: !Usable(ip, myIPs, port, health)
  {
    if ips == [] then None
    else if Usable(ips[0], myIPs, port, health) then Some(ips[0])
    else FirstUsable(ips[1..], myIPs, port, health)
  }

  predicate IsOther(e: Entry, myIPs: set<string>) {
    !e.isDir && e.isIP && e.name !in myIPs
  }

  /** The endpoint contributed by one directory entry. */
  function EndpointOf(e: Entry, myIPs: set<string>, port: string, health: string -> Health): Option<string> {
    if !IsOther(e, myIPs) then None
    else
      var ip := FirstUsable(IPsOf(e), myIPs, port, health);
      if ip.Some? then Some(JoinHostPort(ip.value, port)) else None
  }

  function Endpoints(dir: seq<Entry>, myIPs: set<string>, port: string, health: string -> Health): (r: seq<string>)
    ensures |r| <= |dir|
    ensures forall p :: p in r <==> exists e :: e in dir && EndpointOf(e, myIPs, port, health) == Some(p)
  {
    if dir == [] then []
    else
      var init, last := dir[..|dir| - 1], dir[|dir| - 1];
      assert dir == init + [last];
      var p := EndpointOf(last, myIPs, port, health);
      Endpoints(init, myIPs, port, health) + if p.Some? then [p.value] else []
  }

  method CollectOtherEndpoints(dir: Option<seq<Entry>>, myIPs: set<string>, port: string, health: string -> Health)
    returns (endpoints: seq<string>, early: Option<Verdict>)
    ensures dir.None? ==> early == Some(ReadError)
    ensures dir.Some? ==> endpoints == Endpoints(dir.value, myIPs, port, health)
    ensures dir.Some? && endpoints != [] ==> early.None?
    ensures dir.Some? && endpoints == [] ==>
      early == Some(if exists e :: e in dir.value && !e.isDir && e.isIP && e.name !in myIPs then NoHealthyNodes
                    else NoOtherNodes)
  {
    endpoints := [];
    if dir.None? {
      return [], Some(ReadError);
    }
    var entries := dir.value;
    var totalOtherNodes := 0;
    for i := 0 to |entries|
      invariant endpoints == Endpoints(entries[..i], myIPs, port, health)
      invariant totalOtherNodes > 0 <==> exists k :: 0 <= k < i && IsOther(entries[k], myIPs)
    {
      var e := entries[i];
      assert entries[..i + 1][..i] == entries[..i] && entries[..i + 1][i] == e;
      if e.isDir {
        continue;
      }
      if !e.isIP {
        continue;
      }
      if e.name in myIPs {
        continue;
      }
      totalOtherNodes := totalOtherNodes + 1;
      var ips := ReadIPFile(e);
      if ips.None? {
        continue;
      }
      var found := FindUsable(ips.value, myIPs, port, health);
      if found.Some? {
        endpoints := endpoints + [JoinHostPort(found.value, port)];
      }
    }
    assert entries[..|entries|] == entries;
    if |endpoints| == 0 {
      return [], Some(if totalOtherNodes > 0 then NoHealthyNodes else NoOtherNodes);
    }
    return endpoints, None;
  }

  method FindUsable(ips: seq<string>, myIPs: set<string>, port: string, health: string -> Health)
    returns (r: Option<string>)
    ensures r == FirstUsable(ips, myIPs, port, health)
  {
    for j := 0 to |ips|
      invariant FirstUsable(ips, myIPs, port, health) == FirstUsable(ips[j..], myIPs, port, health)
    {
      if ips[j] in myIPs {
        continue;
      }
      if health(JoinHostPort(ips[j], port)) == HealthHealthy {
        return Some(ips[j]);
      }
    }
    return None;
  }

  /** Every endpoint comes from its own entry of the directory, in the directory's order. */
  ghost predicate Traced(endpoints: seq<string>, at: seq<nat>, dir: seq<Entry>, myIPs: set<string>, port: string,
      health: string -> Health)
  {
    && |at| == |endpoints|
    && (forall i, j | 0 <= i < j < |at| :: at[i] < at[j])
    && (forall i | 0 <= i < |at| :: at[i] < |dir| && ComesFrom(endpoints[i], dir[at[i]], myIPs, port, health))
  }

  lemma TraceOneMore(endpoints: seq<string>, at: seq<nat>, init: seq<Entry>, last: Entry, myIPs: set<string>,
      port: string, health: string -> Health)
    requires Traced(endpoints, at, init, myIPs, port, health)
    ensures Traced(endpoints, at, init + [last], myIPs, port, health)
    ensures forall p | ComesFrom(p, last, myIPs, port, health) ::
      Traced(endpoints + [p], at + [|init|], init + [last], myIPs, port, health)
  {
    hide ComesFrom;
  }

  /**
   * Compared endpoints come from different entries of the directory, each of another node; each uses an address of
   * its node that is not ours and was found healthy.
   */
  lemma {:induction false} ComparedEndpointsAreForeign(dir: seq<Entry>, myIPs: set<string>, port: string,
      health: string -> Health) returns (at: seq<nat>)
    ensures Traced(Endpoints(dir, myIPs, port, health), at, dir, myIPs, port, health)
  {
    at := [];
    if dir != [] {
      var init, last := dir[..|dir| - 1], dir[|dir| - 1];
      assert dir == init + [last];
      at := ComparedEndpointsAreForeign(init, myIPs, port, health);
      hide ComesFrom, EndpointOf, IsOther, Traced;
      TraceOneMore(Endpoints(init, myIPs, port, health), at, init, last, myIPs, port, health);
      UsableAddress(last, myIPs, port, health);
      at := at + if EndpointOf(last, myIPs, port, health).Some? then [|init|] else [];
    }
  }

  ghost predicate ComesFrom(p: string, e: Entry, myIPs: set<string>, port: string, health: string -> Health) {
    && !e.isDir && e.isIP && e.name !in myIPs && health(p) == HealthHealthy
    && exists ip :: ip in IPsOf(e) && ip !in myIPs && p == JoinHostPort(ip, port)
  }

  lemma UsableAddress(e: Entry, myIPs: set<string>, port: string, health: string -> Health)
    ensures var p := EndpointOf(e, myIPs, port, health);
      p.Some? ==> ComesFrom(p.value, e, myIPs, port, health)
  {
  }

  /** Address k of entry e is the one to compare with: of another node, not ours, healthy, and the first such. */
  ghost predicate Contributes(e: Entry, k: nat, p: string, myIPs: set<string>, port: string, health: string -> Health) {
    && !e.isDir && e.isIP && e.name !in myIPs
    && k < |IPsOf(e)| && IPsOf(e)[k] !in myIPs && p == JoinHostPort(IPsOf(e)[k], port) && health(p) == HealthHealthy
    && forall j | 0 <= j < k :: IPsOf(e)[j] in myIPs || health(JoinHostPort(IPsOf(e)[j], port)) != HealthHealthy
  }

  lemma {:induction false} FirstUsableAt(ips: seq<string>, myIPs: set<string>, port: string, health: string -> Health)
    returns (k: nat)
    ensures var r := FirstUsable(ips, myIPs, port, health);
      && k <= |ips| && (r.None? <==> k == |ips|)
      && (r.Some? ==> r.value == ips[k] && ips[k] !in myIPs && health(JoinHostPort(ips[k], port)) == HealthHealthy)
      && forall j | 0 <= j < k :: ips[j] in myIPs || health(JoinHostPort(ips[j], port)) != HealthHealthy
  {
    k := 0;
    hide JoinHostPort;
    if ips != [] && !Usable(ips[0], myIPs, port, health) {
      k := FirstUsableAt(ips[1..], myIPs, port, health);
      k := k + 1;
    }
  }

  /** Exactly the endpoints that some entry of the directory contributes are compared. */
  lemma ComparedIff(dir: seq<Entry>, myIPs: set<string>, port: string, health: string -> Health, p: string)
    ensures p in Endpoints(dir, myIPs, port, health)
       <==> exists e, k: nat :: e in dir && Contributes(e, k, p, myIPs, port, health)
  {
    if p in Endpoints(dir, myIPs, port, health) {
      var e :| e in dir && EndpointOf(e, myIPs, port, health) == Some(p);
      var k := FirstUsableAt(IPsOf(e), myIPs, port, health);
      assert Contributes(e, k, p, myIPs, port, health);
    }
    if e, k: nat :| e in dir && Contributes(e, k, p, myIPs, port, health) {
      OnlyFirst(e, k, p, myIPs, port, health);
    }
  }

  lemma OnlyFirst(e: Entry, k: nat, p: string, myIPs: set<string>, port: string, health: string -> Health)
    requires Contributes(e, k, p, myIPs, port, health)
    ensures EndpointOf(e, myIPs, port, health) == Some(p)
  {
    var i := FirstUsableAt(IPsOf(e), myIPs, port, health);
    hide JoinHostPort, FirstUsable;
  }

  // ---------------------------------------------------------------- one comparison

  /** An answer that shows a split: another non-zero cluster ID, or a member list without our member ID. */
  predicate Offends(a: Answer, cluster: nat, member: nat) {
    (a.clusterID != 0 && a.clusterID != cluster) || member !in a.memberIDs
  }

  method VerifyWithOtherNodes(endpoints: seq<string>, answer: string -> Option<Answer>, cluster: nat, member: nat)
    returns (v: Verdict)
    ensures v == SplitFound <==> exists p ::
      && p in endpoints && answer(p).Some?
      && ((answer(p).value.clusterID != 0 && answer(p).value.clusterID != cluster) || member !in answer(p).value.memberIDs)
    ensures v == Verified <==>
      && (exists p :: p in endpoints && answer(p).Some?)
      && forall p | p in endpoints && answer(p).Some? ::
           (answer(p).value.clusterID == 0 || answer(p).value.clusterID == cluster) && member in answer(p).value.memberIDs
    ensures v == SplitFound || v == Verified || v == NoHealthyNodes
  {
    var verifiedCount := 0;
    for i := 0 to |endpoints|
      invariant verifiedCount > 0 <==> exists k :: 0 <= k < i && answer(endpoints[k]).Some?
      invariant forall k | 0 <= k < i && answer(endpoints[k]).Some? :: !Offends(answer(endpoints[k]).value, cluster, member)
    {
      var a := answer(endpoints[i]);
      assert endpoints[i] in endpoints;
      if a.None? {
        continue;
      }
      if a.value.clusterID != 0 && cluster != a.value.clusterID {
        return SplitFound;
      }
      var found := MemberIDFound(a.value.memberIDs, member);
      if !found {
        return SplitFound;
      }
      verifiedCount := verifiedCount + 1;
    }
    if verifiedCount == 0 {
      return NoHealthyNodes;
    }
    return Verified;
  }

  method MemberIDFound(ids: seq<nat>, id: nat) returns (r: bool)
    ensures r <==> id in ids
  {
    for i := 0 to |ids|
      invariant id !in ids[..i]
    {
      if ids[i] == id {
        return true;
      }
    }
    return false;
  }

  /** The endpoints a tick compares with. */
  function Compared(view: View, myIPs: set<string>, port: string): seq<string> {
    if view.dir.Some? then Endpoints(view.dir.value, myIPs, port, view.health) else []
  }

  predicate LocalReady(view: View) {
    view.localCluster != 0 && view.localMember != 0
  }

  ghost predicate SeesSplit(view: View, myIPs: set<string>, port: string) {
    && LocalReady(view)
    && exists p :: p in Compared(view, myIPs, port) && view.answer(p).Some?
                && Offends(view.answer(p).value, view.localCluster, view.localMember)
  }

  ghost predicate SeesAgreement(view: View, myIPs: set<string>, port: string) {
    && LocalReady(view)
    && (exists p :: p in Compared(view, myIPs, port) && view.answer(p).Some?)
    && forall p | p in Compared(view, myIPs, port) && view.answer(p).Some? ::
         !Offends(view.answer(p).value, view.localCluster, view.localMember)
  }

  /** One check: a split exactly when some answering node offends, a pass exactly when some answer and none offends. */
  method CheckBrainSplit(view: View, myIPs: set<string>, port: string) returns (v: Verdict)
    ensures v == SplitFound <==> SeesSplit(view, myIPs, port)
    ensures v == Verified <==> SeesAgreement(view, myIPs, port)
    ensures v == LocalNotReady <==> view.localCluster == 0 || view.localMember == 0
  {
    if view.localCluster == 0 || view.localMember == 0 {
      return LocalNotReady;
    }
    var endpoints, early := CollectOtherEndpoints(view.dir, myIPs, port, view.health);
    if early.Some? {
      return early.value;
    }
    v := VerifyWithOtherNodes(endpoints, view.answer, view.localCluster, view.localMember);
  }

  /** The order in which the directory lists the nodes does not matter to the verdict. */
  lemma OrderDoesNotMatter(view: View, other: View, myIPs: set<string>, port: string)
    requires view.dir.Some? && other == view.(dir := other.dir) && other.dir.Some?
    requires multiset(view.dir.value) == multiset(other.dir.value)
    ensures SeesSplit(view, myIPs, port) <==> SeesSplit(other, myIPs, port)
    ensures SeesAgreement(view, myIPs, port) <==> SeesAgreement(other, myIPs, port)
  {
    SameElements(view.dir.value, other.dir.value);
    assert forall e :: e in view.dir.value <==> e in ToSet(view.dir.value);
    assert forall e :: e in other.dir.value <==> e in ToSet(other.dir.value);
    hide EndpointOf, Offends;
    assert forall p :: p in Compared(view, myIPs, port) <==> p in Compared(other, myIPs, port);
  }

  /** A zero cluster ID is never an offence by itself: such a node counts as agreeing if it lists our member. */
  lemma ZeroClusterIDAgrees(a: Answer, cluster: nat, member: nat)
    requires a.clusterID == 0
    ensures Offends(a, cluster, member) <==> member !in a.memberIDs
  {
  }

  // ---------------------------------------------------------------- the ticking checker

  datatype Event = Stop | Tick(view: View)

  ghost predicate Quiet(e: Event, myIPs: set<string>, port: string) {
    e.Tick? && !SeesSplit(e.view, myIPs, port) && !SeesAgreement(e.view, myIPs, port)
  }

  /** The first event from `i` on that is not quiet, or the number of events. */
  ghost function FirstLoud(events: seq<Event>, i: nat, myIPs: set<string>, port: string): (k: nat)
    requires i <= |events|
    ensures i <= k <= |events| && forall j | i <= j < k :: Quiet(events[j], myIPs, port)
    ensures k < |events| ==> !Quiet(events[k], myIPs, port)
    decreases |events| - i
  {
    if i == |events| || !Quiet(events[i], myIPs, port) then i else FirstLoud(events, i + 1, myIPs, port)
  }

  /** The first tick that is not quiet, before any stop, shows a split. */
  ghost predicate Alarms(events: seq<Event>, myIPs: set<string>, port: string) {
    var k := FirstLoud(events, 0, myIPs, port);
    k < |events| && events[k].Tick? && SeesSplit(events[k].view, myIPs, port)
  }

  lemma AlarmAfterQuiet(quiet: seq<Event>, view: View, myIPs: set<string>, port: string)
    requires (forall e | e in quiet :: Quiet(e, myIPs, port)) && SeesSplit(view, myIPs, port)
    ensures Alarms(quiet + [Tick(view)], myIPs, port)
  {
    var events := quiet + [Tick(view)];
    assert !Quiet(events[|quiet|], myIPs, port);
    hide SeesSplit, SeesAgreement, Quiet;
    assert forall j | 0 <= j < |quiet| :: events[j] in quiet;
  }

  /**
   * The checker over any sequence of ticks and stop signals, in the order in which it takes them. `sent` is what it
   * puts on its result channel (true for a split) and `running` whether it has not yet closed that channel.
   * It never gives up on quiet ticks, sends at most one result, and stops silently on a stop signal.
   */
  method RunChecker(certsLoad: bool, events: seq<Event>, myIPs: set<string>, port: string)
    returns (sent: seq<bool>, running: bool)
    ensures !certsLoad ==> sent == [] && !running
    ensures certsLoad ==> var k := FirstLoud(events, 0, myIPs, port);
      && (running <==> k == |events|)
      && (running || events[k].Stop? ==> sent == [])
      && (!running && events[k].Tick? ==> sent == [SeesSplit(events[k].view, myIPs, port)])
    ensures sent == [true] <==> certsLoad && Alarms(events, myIPs, port)
  {
    sent, running := [], certsLoad;
    if !certsLoad {
      return;
    }
    for i := 0 to |events|
      invariant FirstLoud(events, 0, myIPs, port) == FirstLoud(events, i, myIPs, port)
      invariant sent == [] && running
    {
      if events[i].Stop? {
        return [], false;
      }
      var v := CheckBrainSplit(events[i].view, myIPs, port);
      hide SeesSplit, SeesAgreement;
      if v == SplitFound {
        return [true], false;
      }
      if v == Verified {
        return [false], false;
      }
    }
  }
}
