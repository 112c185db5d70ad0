/** The join code in its own form: methods that change the cluster, the disk, the environment and the child process. */
module Manager {
  import opened Base
  import opened Text
  import opened Members
  import opened InitialCluster
  import opened Joining

  /** The etcd cluster behind the client. */
  class Cluster {
    const id: nat
    var members: seq<Member>
    ghost var configs: seq<seq<Member>>

    constructor (id: nat, founder: Member)
      ensures this.id == id && members == [founder] && configs == []
    {
      this.id, members, configs := id, [founder], [];
    }

    /** The cluster as a client meets it, whatever it went through before. */
    constructor At(id: nat, members: seq<Member>)
      ensures this.id == id && this.members == members && configs == []
    {
      this.id, this.members, configs := id, members, [];
    }

    method MemberRemove(member: nat, env: Env) returns (ok: bool)
      modifies this
      ensures members == Remove(old(members), member, env.remove(member))
      ensures configs == old(configs) + [members]
      ensures ok <==> env.remove(member) == Accepted
    {
      members := Remove(members, member, env.remove(member));
      configs := configs + [members];
      ok := env.remove(member) == Accepted;
    }

    method MemberAdd(urls: seq<string>, learner: bool, env: Env) returns (ok: bool)
      modifies this
      ensures var reply := if Overlaps(old(members), env.arrange(urls)) then Rejected else env.add;
        && members == (if reply.TookEffect() then old(members) + [NewMember(urls, learner, env)] else old(members))
        && (ok <==> reply == Accepted)
      ensures configs == old(configs) + [members]
    {
      ok := false;
      var clash := ClashesWith(env.arrange(urls));
      if !clash && env.add.TookEffect() {
        members := members + [NewMember(urls, learner, env)];
        ok := env.add == Accepted;
      }
      configs := configs + [members];
    }

    method ClashesWith(urls: seq<string>) returns (clash: bool)
      ensures clash <==> Overlaps(members, urls)
    {
      for i := 0 to |members|
        invariant forall k, u | 0 <= k < i && u in urls :: u !in members[k].peerURLs
      {
        for j := 0 to |urls|
          invariant forall k | 0 <= k < j :: urls[k] !in members[i].peerURLs
        {
          if urls[j] in members[i].peerURLs {
            assert members[i] in members && urls[j] in urls;
            return true;
          }
        }
      }
      return false;
    }

    method MemberPromote(member: nat, reply: Reply) returns (ok: bool)
      modifies this
      ensures members == if reply.TookEffect() then SetVoter(old(members), member) else old(members)
      ensures configs == old(configs) + [members]
      ensures ok <==> reply == Accepted
    {
      if reply.TookEffect() {
        members := SetVoter(members, member);
      }
      configs := configs + [members];
      ok := reply == Accepted;
    }
  }

  /** The pod's host: its data directory, the etcd child process and the environment given to it. */
  class Host {
    var disk: Option<Data>
    var child: Option<Data>
    var initial: Launch

    constructor (disk: Option<Data>)
      ensures this.disk == disk && child == None && initial == Unset
    {
      this.disk, child, initial := disk, None, Unset;
    }

    /** startEtcd. The etcd process reads its data directory, or else bootstraps `newData` there. */
    method StartEtcd(newData: Data, env: Env) returns (ok: bool)
      modifies this
      ensures ok == env.start && initial == old(initial)
      ensures !ok ==> disk == old(disk) && child == old(child)
      ensures ok ==> disk == child == if old(disk).Some? then old(disk) else Some(newData)
    {
      ok := env.start;
      if ok {
        if disk.None? {
          disk := Some(newData);
        }
        child := disk;
      }
    }
  }

  /** The values of cluster and host that a pass reads and writes. */
  ghost function Now(client: Cluster, host: Host): Site
    reads client, host
  {
    Site(client.id, client.members, client.configs, host.disk, host.child, host.initial)
  }

  class JoinManager {
    const pod: Pod

    constructor (pod: Pod)
      ensures this.pod == pod
    {
      this.pod := pod;
    }

    /** InitializeNewCluster: the etcd it starts is the only member of a new cluster. */
    method InitializeNewCluster(host: Host, newCluster: nat, env: Env) returns (r: Outcome, cluster: Cluster?)
      modifies host
      ensures var was := Site(newCluster, [], [], old(host.disk), old(host.child), old(host.initial));
        var pass := InitPass(was, pod, newCluster, env);
        && r == pass.outcome && (r == Started <==> cluster != null)
        && (host.disk, host.child, host.initial) == (pass.site.disk, pass.site.child, pass.site.initial)
        && (cluster != null ==> fresh(cluster) && Now(cluster, host) == pass.site)
    {
      var entries := PeerEndpoints();
      host.initial := NewState(entries);
      host.disk := None;
      var ok := host.StartEtcd(Data(newCluster, env.newID), env);
      if !ok {
        return StartFailed, null;
      }
      cluster := new Cluster(newCluster, FounderMember(pod, env));
      return Started, cluster;
    }

    method PeerEndpoints() returns (addresses: seq<string>)
      ensures addresses == BuildPeerEndpoints(pod.name, pod.ips, pod.port)
    {
      addresses := [];
      for i := 0 to |pod.ips|
        invariant addresses == BuildPeerEndpoints(pod.name, pod.ips, pod.port)[..i]
      {
        var ip := "https://" + pod.ips[i];
        addresses := addresses + [pod.name + "=" + ip + ":" + pod.port];
      }
    }

    method JoinExistingCluster(client: Cluster, host: Host, dead: set<string>, env: Env) returns (r: Outcome)
      modifies client, host
      ensures Pass(Now(client, host), r) == JoinPass(old(Now(client, host)), pod, dead, env)
    {
      if !env.list {
        return ListFailed;
      }
      var mine := BuildPeerURLSet(pod.ips, pod.port);
      var scan := ProcessMembers(client, host, client.members, dead, Me(pod.name, mine), env);
      r := HandleJoin(client, host, scan, env);
    }

    method ProcessMembers(client: Cluster, ghost host: Host, members: seq<Member>, dead: set<string>, me: Me, env: Env)
      returns (scan: Scan)
      modifies client
      ensures scan == ScanOf(members, me, dead)
      ensures Now(client, host) == PurgeAll(old(Now(client, host)), WithRole(Doomed, members, me, dead), env)
    {
      var myID, myLearner, voting := 0, false, 0;
      for i := 0 to |members|
        invariant Scan(myID, myLearner, voting) == ScanOf(members[..i], me, dead)
        invariant Now(client, host) == PurgeAll(old(Now(client, host)), WithRole(Doomed, members[..i], me, dead), env)
      {
        var member := members[i];
        ScanOneMore(members, i, me, dead);
        PurgeOneMore(old(Now(client, host)), WithRole(Doomed, members[..i], me, dead), member, env);
        var urlsMatch := CheckPeerURLsMatch(member.peerURLs, me.urls);
        if member.name == me.name || urlsMatch {
          if member.id != 0 {
            myID := member.id;
          }
          myLearner := member.isLearner;
          continue;
        }
        var shouldRemove := CheckDeadIP(member, dead);
        if shouldRemove {
          var _ := client.MemberRemove(member.id, env);
        } else if !member.isLearner {
          voting := voting + 1;
        }
      }
      assert members[..|members|] == members;
      scan := Scan(myID, myLearner, voting);
    }

    /** The two nested loops over URLs and dead IPs; the order of the dead IPs does not matter. */
    method CheckDeadIP(member: Member, dead: set<string>) returns (r: bool)
      ensures r <==> HasDeadIP(member, dead)
    {
      for i := 0 to |member.peerURLs|
        invariant forall k, ip | 0 <= k < i && ip in dead :: !Contains(member.peerURLs[k], ip)
      {
        var rest := dead;
        while rest != {}
          invariant rest <= dead
          invariant forall ip | ip in dead - rest :: !Contains(member.peerURLs[i], ip)
          decreases rest
        {
          var ip :| ip in rest;
          if Contains(member.peerURLs[i], ip) {
            assert member.peerURLs[i] in member.peerURLs;
            return true;
          }
          rest := rest - {ip};
        }
      }
      return false;
    }

    method HandleJoin(client: Cluster, host: Host, scan: Scan, env: Env) returns (r: Outcome)
      modifies client, host
      ensures Pass(Now(client, host), r) == HandleMemberJoin(old(Now(client, host)), scan, pod, env)
    {
      if scan.myID != 0 {
        if host.disk.Some? {
          r := HandleExistingMemberWithData(client, host, scan.myID, scan.myLearner, env);
        } else {
          r := HandleExistingMemberWithoutData(client, host, scan.myID, scan.voting, env);
        }
        return;
      }
      if host.disk.Some? {
        host.disk := None;
      }
      r := AddAndStart(client, host, scan.voting, env);
    }

    method HandleExistingMemberWithData(client: Cluster, host: Host, id: nat, learner: bool, env: Env)
      returns (r: Outcome)
      requires host.disk.Some?
      modifies client, host
      ensures Pass(Now(client, host), r) == JoinWithData(old(Now(client, host)), id, learner, env)
    {
      if learner {
        var promoted := Promote(client, host, id, env);
        if !promoted {
          var _ := client.MemberRemove(id, env);
          host.disk := None;
          return PromoteFailedCleanedUp;
        }
      }
      var ok := host.StartEtcd(host.disk.value, env);
      r := if ok then Started else StartFailed;
    }

    method HandleExistingMemberWithoutData(client: Cluster, host: Host, id: nat, voting: nat, env: Env)
      returns (r: Outcome)
      modifies client, host
      ensures Pass(Now(client, host), r) == JoinWithoutData(old(Now(client, host)), id, pod, voting, env)
    {
      var ok := client.MemberRemove(id, env);
      if !ok {
        return SelfRemovalFailed;
      }
      r := AddAndStart(client, host, voting, env);
    }

    method AddAndStart(client: Cluster, host: Host, voting: nat, env: Env) returns (r: Outcome)
      modifies client, host
      ensures Pass(Now(client, host), r) == AddMemberAndStart(old(Now(client, host)), pod, voting, env)
    {
      hide PromoteLearner, Promotes, Overlaps, BuildClusterConfig;
      var mypeers := pod.URLs();
      var ok, shouldPromote := false, false;
      if voting == 1 {
        ok := client.MemberAdd(mypeers, true, env);
        shouldPromote := true;
      } else if voting > 1 {
        ok := client.MemberAdd(mypeers, false, env);
      } else {
        return NoVoters;
      }
      if !ok {
        return AddFailed;
      }
      var entries := BuildConfig(client.members);
      host.initial := ExistingState(entries);
      ok := host.StartEtcd(Data(client.id, env.newID), env);
      if !ok {
        return StartFailed;
      }
      if shouldPromote {
        var promoted := Promote(client, host, env.newID, env);
        if !promoted {
          if env.sigterm {
            host.child := None;
          }
          return PromoteFailed;
        }
      }
      return Started;
    }

    method BuildConfig(members: seq<Member>) returns (cluster: seq<string>)
      ensures cluster == BuildClusterConfig(members, pod.name)
    {
      cluster := [];
      for i := 0 to |members|
        invariant cluster == BuildClusterConfig(members[..i], pod.name)
      {
        var member := members[i];
        ghost var before := cluster;
        assert members[..i + 1][..i] == members[..i] && members[..i + 1][i] == member;
        for j := 0 to |member.peerURLs|
          invariant cluster == before + EntriesOf(member, pod.name)[..j]
        {
          var name := member.name;
          if name == "" {
            name := pod.name;
          }
          cluster := cluster + [name + "=" + member.peerURLs[j]];
        }
        assert cluster == before + EntriesOf(member, pod.name);
      }
      assert members[..|members|] == members;
    }

    /** promoteLearner: at most 100 attempts, a success exactly when one of them is accepted. */
    method Promote(client: Cluster, ghost host: Host, id: nat, env: Env) returns (ok: bool)
      modifies client
      ensures Now(client, host) == PromoteLearner(old(Now(client, host)), id, env)
      ensures ok <==> Promotes(env)
      ensures ok <==> exists k :: 1 <= k <= 100 && env.promote(k) == Accepted
      ensures |client.configs| <= |old(client.configs)| + 100
    {
      hide FirstAccepted;
      for attempt := 1 to MAX_PROMOTE_ATTEMPTS + 1
        invariant forall k | 1 <= k < attempt :: env.promote(k) != Accepted
        invariant Now(client, host) == PromoteTimes(old(Now(client, host)), id, env, attempt - 1)
        invariant |client.configs| == |old(client.configs)| + attempt - 1
      {
        var accepted := client.MemberPromote(id, env.promote(attempt));
        if accepted {
          assert FirstAccepted(env.promote, 1) == attempt;
          return true;
        }
      }
      assert FirstAccepted(env.promote, 1) == MAX_PROMOTE_ATTEMPTS + 1;
      return false;
    }
  }
}
