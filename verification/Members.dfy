/** The member list of an etcd cluster: who in it is this pod, who is to be removed, who votes. */
module Members {
  import opened Base
  import opened Text

  datatype Member = Member(id: nat, name: string, peerURLs: seq<string>, isLearner: bool)

  /** What the server makes of one membership request. Lost: it takes effect, but the caller gets an error. */
  datatype Reply = Accepted | Rejected | Lost {
    predicate TookEffect() { this != Rejected }
  }

  /** A pod as it recognises itself: its name and the set of its peer URLs. */
  datatype Me = Me(name: string, urls: set<string>)

  // ---------------------------------------------------------------- recognising oneself

  method BuildPeerURLSet(myIPs: seq<string>, peerPort: string) returns (urls: set<string>)
    ensures urls == ToSet(PeerURLs(myIPs, peerPort))
    ensures forall u :: u in urls <==> exists ip :: ip in myIPs && u == "https://" + ip + ":" + peerPort
  {
    PeerURLsAre(myIPs, peerPort);
    urls := {};
    for i := 0 to |myIPs|
      invariant urls == ToSet(PeerURLs(myIPs[..i], peerPort))
    {
      ghost var before := PeerURLs(myIPs[..i], peerPort);
      assert PeerURLs(myIPs[..i + 1], peerPort) == before + [PeerURL(myIPs[i], peerPort)];
      urls := urls + {PeerURL(myIPs[i], peerPort)};
    }
    assert myIPs[..|myIPs|] == myIPs;
  }

  lemma PeerURLsAre(ips: seq<string>, port: string)
    ensures forall u :: u in ToSet(PeerURLs(ips, port)) <==> exists ip :: ip in ips && u == "https://" + ip + ":" + port
  {
    var urls := PeerURLs(ips, port);
    forall i | 0 <= i < |ips| ensures urls[i] in urls && ips[i] in ips && urls[i] == "https://" + ips[i] + ":" + port {
    }
  }

  predicate PeerURLsMatch(peerURLs: seq<string>, mine: set<string>) {
    peerURLs != [] && mine != {} && |peerURLs| == |mine| && forall u | u in peerURLs :: u in mine
  }

  method CheckPeerURLsMatch(peerURLs: seq<string>, mine: set<string>) returns (r: bool)
    ensures r <==> PeerURLsMatch(peerURLs, mine)
  {
    if |peerURLs| == 0 || |mine| == 0 {
      return false;
    }
    if |peerURLs| != |mine| {
      return false;
    }
    for i := 0 to |peerURLs|
      invariant forall k | 0 <= k < i :: peerURLs[k] in mine
    {
      if peerURLs[i] !in mine {
        return false;
      }
    }
    return true;
  }

  /** On a duplicate-free list the length-and-membership test is set equality. */
  lemma MatchIsSetEquality(peerURLs: seq<string>, mine: set<string>)
    requires NoDup(peerURLs)
    ensures PeerURLsMatch(peerURLs, mine) <==> peerURLs != [] && ToSet(peerURLs) == mine
  {
    SizeOfToSet(peerURLs);
    assert peerURLs != [] ==> peerURLs[0] in ToSet(peerURLs);
    if PeerURLsMatch(peerURLs, mine) {
      SubsetOfSameSize(ToSet(peerURLs), mine);
    }
  }

  /** And only then: a list with a repeated URL fails the test against its own set of URLs. */
  lemma MatchIsSetEqualityIff(peerURLs: seq<string>)
    ensures (forall mine :: PeerURLsMatch(peerURLs, mine) <==> peerURLs != [] && ToSet(peerURLs) == mine)
       <==> NoDup(peerURLs)
  {
    SizeOfToSet(peerURLs);
    if NoDup(peerURLs) {
      forall mine ensures PeerURLsMatch(peerURLs, mine) <==> peerURLs != [] && ToSet(peerURLs) == mine {
        MatchIsSetEquality(peerURLs, mine);
      }
    } else {
      assert peerURLs != [] && !PeerURLsMatch(peerURLs, ToSet(peerURLs));
    }
  }

  predicate IsSelf(m: Member, me: Me) {
    m.name == me.name || PeerURLsMatch(m.peerURLs, me.urls)
  }

  /** A member with its URLs listed once each is the pod if and only if it bears its name or has exactly its URLs. */
  lemma IsSelfIff(m: Member, me: Me)
    requires NoDup(m.peerURLs)
    ensures IsSelf(m, me) <==> m.name == me.name || (m.peerURLs != [] && forall u :: u in m.peerURLs <==> u in me.urls)
  {
    MatchIsSetEquality(m.peerURLs, me.urls);
    hide PeerURLsMatch;
    assert ToSet(m.peerURLs) == me.urls <==> forall u :: u in m.peerURLs <==> u in me.urls;
  }

  /** The member that the pod itself added, whose etcd never started: no name, its URLs in the server's order. */
  lemma OwnAdditionRecognised(m: Member, ips: seq<string>, port: string, me: Me)
    requires me.urls == ToSet(PeerURLs(ips, port)) && me.name != ""
    requires m.name == "" && multiset(m.peerURLs) == multiset(PeerURLs(ips, port))
    ensures IsSelf(m, me) <==> ips != [] && NoDup(ips)
  {
    var urls := PeerURLs(ips, port);
    SameElements(m.peerURLs, urls);
    PeerURLsKeepDistinct(ips, port);
    SizeOfToSet(urls);
    if NoDup(ips) {
      MatchIsSetEquality(m.peerURLs, me.urls);
    }
    if ips != [] {
      assert urls[0] in me.urls;
    }
  }

  // ---------------------------------------------------------------- sorting a member list into roles

  datatype Role = Self | Doomed | Learner | Voter

  predicate HasDeadIP(m: Member, dead: set<string>) {
    exists u, ip | u in m.peerURLs && ip in dead :: Contains(u, ip)
  }

  function RoleOf(m: Member, me: Me, dead: set<string>): Role {
    if IsSelf(m, me) then Self
    else if HasDeadIP(m, dead) then Doomed
    else if m.isLearner then Learner
    else Voter
  }

  function WithRole(role: Role, list: seq<Member>, me: Me, dead: set<string>): (r: seq<Member>)
    ensures forall m :: m in r <==> m in list && RoleOf(m, me, dead) == role
  {
    if list == [] then []
    else
      var init, last := list[..|list| - 1], list[|list| - 1];
      assert list == init + [last];
      WithRole(role, init, me, dead) + if RoleOf(last, me, dead) == role then [last] else []
  }

  /** How often `m` occurs in the list in the given role: a member has only one role. */
  lemma {:induction false} WithRoleCounts(role: Role, list: seq<Member>, me: Me, dead: set<string>, m: Member)
    ensures multiset(WithRole(role, list, me, dead))[m] == if RoleOf(m, me, dead) == role then multiset(list)[m] else 0
  {
    if list != [] {
      var init, last := list[..|list| - 1], list[|list| - 1];
      assert list == init + [last];
      WithRoleCounts(role, init, me, dead, m);
    }
  }

  /** The four roles split the list: nothing is lost, nothing is counted twice. */
  lemma {:induction false} RolesPartition(list: seq<Member>, me: Me, dead: set<string>)
    ensures multiset(list) == multiset(WithRole(Self, list, me, dead)) + multiset(WithRole(Doomed, list, me, dead))
          + multiset(WithRole(Learner, list, me, dead)) + multiset(WithRole(Voter, list, me, dead))
    ensures |list| == |WithRole(Self, list, me, dead)| + |WithRole(Doomed, list, me, dead)|
          + |WithRole(Learner, list, me, dead)| + |WithRole(Voter, list, me, dead)|
  {
    var s, d := WithRole(Self, list, me, dead), WithRole(Doomed, list, me, dead);
    var l, v := WithRole(Learner, list, me, dead), WithRole(Voter, list, me, dead);
    var all := multiset(s) + multiset(d) + multiset(l) + multiset(v);
    forall m ensures multiset(list)[m] == all[m] {
      WithRoleCounts(Self, list, me, dead, m);
      WithRoleCounts(Doomed, list, me, dead, m);
      WithRoleCounts(Learner, list, me, dead, m);
      WithRoleCounts(Voter, list, me, dead, m);
    }
    assert multiset(list) == all;
    assert |multiset(list)| == |list| && |all| == |s| + |d| + |l| + |v|;
  }

  predicate OnDeadHost(hosts: seq<string>, dead: set<string>) {
    exists h | h in hosts :: h in dead
  }

  /** Some dead IP is a part of some of the member's URLs, whether or not it is one of its hosts. */
  predicate Mentions(hosts: seq<string>, port: string, dead: set<string>) {
    exists h, d | h in hosts && d in dead :: Contains(PeerURL(h, port), d)
  }

  lemma DoomedMentions(m: Member, me: Me, dead: set<string>, hosts: seq<string>, port: string)
    requires m.peerURLs == PeerURLs(hosts, port) && !IsSelf(m, me)
    ensures RoleOf(m, me, dead) == Doomed <==> Mentions(hosts, port, dead)
  {
    if u, d :| u in m.peerURLs && d in dead && Contains(u, d) {
      var k :| 0 <= k < |hosts| && m.peerURLs[k] == u;
      assert hosts[k] in hosts && Contains(PeerURL(hosts[k], port), d);
    }
    if h, d :| h in hosts && d in dead && Contains(PeerURL(h, port), d) {
      var k :| 0 <= k < |hosts| && hosts[k] == h;
      assert m.peerURLs[k] in m.peerURLs;
    }
  }

  lemma DeadHostIsMentioned(hosts: seq<string>, port: string, dead: set<string>)
    requires OnDeadHost(hosts, dead)
    ensures Mentions(hosts, port, dead)
  {
    var h :| h in hosts && h in dead;
    ContainsPart("https://", h, ":" + port);
    assert "https://" + h + (":" + port) == PeerURL(h, port);
  }

  /**
   * The members that are removed are those on a dead host, if and only if no other member that is not on one has a
   * URL with a dead IP as a part.
   */
  lemma RemovalsAreRightIff(list: seq<Member>, me: Me, dead: set<string>, hosts: Member -> seq<string>, port: string)
    requires forall m | m in list :: m.peerURLs == PeerURLs(hosts(m), port)
    ensures (forall m | m in list && !IsSelf(m, me) ::
               m in WithRole(Doomed, list, me, dead) <==> OnDeadHost(hosts(m), dead))
       <==> (forall m | m in list && !IsSelf(m, me) && !OnDeadHost(hosts(m), dead) :: !Mentions(hosts(m), port, dead))
  {
    hide IsSelf, Mentions, OnDeadHost, RoleOf;
    forall m | m in list && !IsSelf(m, me)
      ensures m in WithRole(Doomed, list, me, dead) <==> Mentions(hosts(m), port, dead)
      ensures OnDeadHost(hosts(m), dead) ==> Mentions(hosts(m), port, dead)
    {
      DoomedMentions(m, me, dead, hosts(m), port);
      if OnDeadHost(hosts(m), dead) {
        DeadHostIsMentioned(hosts(m), port, dead);
      }
    }
  }

  lemma OccurrenceAvoids(u: string, d: string, i: int, p: nat)
    requires OccursAt(u, d, i) && p < |u| && u[p] !in d
    ensures p < i || i + |d| <= p
  {
    assert forall q | i <= q < i + |d| :: u[q] == u[i..i + |d|][q - i];
  }

  lemma OccurrenceIn(u: string, d: string, i: int, from: nat, to: nat)
    requires from <= i && i + |d| <= to <= |u|
    ensures OccursAt(u, d, i) <==> OccursAt(u[from..to], d, i - from)
  {
    var a, b := u[from..to][i - from..i - from + |d|], u[i..i + |d|];
    assert |a| == |b| && forall q | 0 <= q < |d| :: a[q] == u[i + q] == b[q];
    assert a == b;
  }

  lemma OccurrenceHas(u: string, d: string, i: int, c: char) returns (k: nat)
    requires OccursAt(u, d, i) && c in d
    ensures i <= k < i + |d| && u[k] == c
  {
    var j :| 0 <= j < |d| && d[j] == c;
    k := i + j;
    assert u[k] == u[i..i + |d|][j];
  }

  /** A dotted dead IP can only occur in the host of a URL: not in its scheme, nor in a port without dots. */
  lemma DottedIPOccursInHost(host: string, port: string, d: string)
    requires '.' in d && '/' !in d && ':' !in d && '.' !in port
    ensures Contains(PeerURL(host, port), d) <==> Contains(host, d)
  {
    var u, n := PeerURL(host, port), 8 + |host|;
    assert u[7] == '/' && u[n] == ':' && u[8..n] == host && u[n + 1..] == port;
    assert forall k: nat | k < 7 :: u[k] == "https:/"[k] != '.';
    assert forall k | n < k < |u| :: u[k] == u[n + 1..][k - n - 1] && u[k] in port;
    if i :| OccursAt(host, d, i) {
      OccurrenceIn(u, d, i + 8, 8, n);
    }
    if i :| OccursAt(u, d, i) {
      OccurrenceAvoids(u, d, i, 7);
      OccurrenceAvoids(u, d, i, n);
      var k := OccurrenceHas(u, d, i, '.');
      OccurrenceIn(u, d, i, 8, n);
      assert OccursAt(host, d, i - 8);
    }
  }

  /** The condition can fail: 10.0.0.1 is a part of the URL of 10.0.0.10, and a live member is doomed. */
  lemma DoomedBySubstring()
    ensures var m := Member(7, "etcd-9", ["https://10.0.0.10:2480"], false);
            RoleOf(m, Me("etcd-0", {"https://10.0.0.2:2480"}), {"10.0.0.1"}) == Doomed
  {
    var live, own, dead := "https://10.0.0.10:2480", "https://10.0.0.2:2480", "10.0.0.1";
    assert Contains(live, dead) && live != own by {
      ContainsPart("https://", dead, "0:2480");
      assert "https://" + dead + "0:2480" == live;
      assert live[15] != own[15];
    }
    hide Contains;
    var m := Member(7, "etcd-9", [live], false);
    assert live in m.peerURLs && dead in {dead};
    assert m.name[|m.name| - 1] != "etcd-0"[5];
  }

  // ---------------------------------------------------------------- what processMembers finds

  datatype Scan = Scan(myID: nat, myLearner: bool, voting: nat)

  /** The last non-zero ID among the entries that are this pod, or 0. */
  function MyID(list: seq<Member>, me: Me): (id: nat)
    ensures id == 0 <==> forall m | m in list && IsSelf(m, me) :: m.id == 0
    ensures id != 0 ==> exists m :: m in list && IsSelf(m, me) && m.id == id
  {
    if list == [] then 0
    else
      var init, last := list[..|list| - 1], list[|list| - 1];
      assert list == init + [last];
      if IsSelf(last, me) && last.id != 0 then last.id else MyID(init, me)
  }

  /** Whether the last entry that is this pod is a learner. */
  function MyLearner(list: seq<Member>, me: Me): (r: bool)
    ensures r ==> exists m :: m in list && IsSelf(m, me) && m.isLearner
    ensures (forall m | m in list && IsSelf(m, me) :: m.isLearner) && (exists m :: m in list && IsSelf(m, me)) ==> r
  {
    if list == [] then false
    else
      var init, last := list[..|list| - 1], list[|list| - 1];
      assert list == init + [last];
      if IsSelf(last, me) then last.isLearner else MyLearner(init, me)
  }

  function ScanOf(list: seq<Member>, me: Me, dead: set<string>): Scan {
    Scan(MyID(list, me), MyLearner(list, me), |WithRole(Voter, list, me, dead)|)
  }

  /** How reading one more entry changes the scan and the list of members to remove. */
  lemma ScanOneMore(list: seq<Member>, i: nat, me: Me, dead: set<string>)
    requires i < |list|
    ensures var m, role := list[i], RoleOf(list[i], me, dead);
      var before, after := ScanOf(list[..i], me, dead), ScanOf(list[..i + 1], me, dead);
      && after.myID == (if role == Self && m.id != 0 then m.id else before.myID)
      && after.myLearner == (if role == Self then m.isLearner else before.myLearner)
      && after.voting == before.voting + (if role == Voter then 1 else 0)
    ensures WithRole(Doomed, list[..i + 1], me, dead)
         == WithRole(Doomed, list[..i], me, dead) + if RoleOf(list[i], me, dead) == Doomed then [list[i]] else []
  {
    assert list[..i + 1][..i] == list[..i] && list[..i + 1][i] == list[i];
  }

  /** With a single own entry of non-zero ID, the scan reports exactly that entry. */
  lemma ScanFindsTheOwnEntry(list: seq<Member>, me: Me, dead: set<string>, own: Member)
    requires own in list && IsSelf(own, me) && own.id != 0
    requires forall m | m in list && IsSelf(m, me) :: m == own
    ensures ScanOf(list, me, dead).myID == own.id && ScanOf(list, me, dead).myLearner == own.isLearner
  {
  }

  // ---------------------------------------------------------------- membership requests on the server

  function Drop(members: seq<Member>, id: nat): (r: seq<Member>)
    ensures forall m :: m in r <==> m in members && m.id != id
  {
    if members == [] then []
    else
      var init, last := members[..|members| - 1], members[|members| - 1];
      assert members == init + [last];
      Drop(init, id) + if last.id == id then [] else [last]
  }

  function Remove(members: seq<Member>, id: nat, reply: Reply): seq<Member> {
    if reply.TookEffect() then Drop(members, id) else members
  }

  /** The list after a removal request for each of `targets`, in order. */
  function Purge(members: seq<Member>, targets: seq<Member>, remove: nat -> Reply): (r: seq<Member>)
    ensures forall m :: m in r <==>
      m in members && forall t | t in targets :: t.id == m.id ==> !remove(t.id).TookEffect()
  {
    if targets == [] then members
    else
      var init, last := targets[..|targets| - 1], targets[|targets| - 1];
      assert targets == init + [last];
      Remove(Purge(members, init, remove), last.id, remove(last.id))
  }

  function SetVoter(members: seq<Member>, id: nat): (r: seq<Member>)
    ensures |r| == |members|
    ensures forall i | 0 <= i < |members| ::
      r[i] == if members[i].id == id then members[i].(isLearner := false) else members[i]
  {
    seq(|members|, i requires 0 <= i < |members| =>
      if members[i].id == id then members[i].(isLearner := false) else members[i])
  }

  /** The server refuses a new member that shares a URL with a listed one. */
  predicate Overlaps(members: seq<Member>, urls: seq<string>) {
    exists m, u | m in members && u in urls :: u in m.peerURLs
  }
}
