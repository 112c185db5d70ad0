/** The ETCD_INITIAL_CLUSTER text: how the programs write it and what etcd reads from it. */
module InitialCluster {
  import opened Text
  import opened Members

  function NameFor(m: Member, podName: string): string {
    if m.name == "" then podName else m.name
  }

  /** The "%s=%s" entries of one member, under its own name or, if it has none yet, ours. */
  function EntriesOf(m: Member, podName: string): seq<string> {
    var name := NameFor(m, podName);
    seq(|m.peerURLs|, i requires 0 <= i < |m.peerURLs| => name + "=" + m.peerURLs[i])
  }

  function BuildClusterConfig(members: seq<Member>, podName: string): seq<string> {
    if members == [] then []
    else BuildClusterConfig(members[..|members| - 1], podName) + EntriesOf(members[|members| - 1], podName)
  }

  /** BuildPeerEndpoints for one named pod, with name and scheme: the form used when founding a cluster. */
  function BuildPeerEndpoints(podName: string, ips: seq<string>, port: string): seq<string> {
    seq(|ips|, i requires 0 <= i < |ips| => podName + "=" + ("https://" + ips[i]) + ":" + port)
  }

  // ---------------------------------------------------------------- reading it back

  /** The part of an entry before its first '=', and the part after it. */
  function Key(entry: string): (k: string)
    ensures '=' !in k && k <= entry
  {
    if entry == "" || entry[0] == '=' then "" else [entry[0]] + Key(entry[1..])
  }

  function Value(entry: string): string {
    if |Key(entry)| < |entry| then entry[|Key(entry)| + 1..] else ""
  }

  /** etcd's reading of the list: empty entries are skipped, URLs with the same key are collected in order. */
  function ParseEntries(entries: seq<string>): (m: map<string, seq<string>>)
    ensures forall k | k in m :: m[k] != []
  {
    if entries == [] then map[]
    else
      var m, last := ParseEntries(entries[..|entries| - 1]), entries[|entries| - 1];
      if last == "" then m else m[Key(last) := URLsIn(m, Key(last)) + [Value(last)]]
  }

  function URLsIn(m: map<string, seq<string>>, name: string): seq<string> {
    if name in m then m[name] else []
  }

  function Parse(text: string): map<string, seq<string>> {
    ParseEntries(Split(text, ','))
  }

  // ---------------------------------------------------------------- the round trip

  /** All URLs listed under a name, in list order. */
  function URLsUnder(name: string, members: seq<Member>, podName: string): seq<string> {
    if members == [] then []
    else
      var last := members[|members| - 1];
      URLsUnder(name, members[..|members| - 1], podName)
      + if (if last.name == "" then podName else last.name) == name then last.peerURLs else []
  }

  ghost predicate SeparatorFree(members: seq<Member>, podName: string) {
    forall m | m in members ::
      && ',' !in m.name && '=' !in m.name && (m.name == "" ==> ',' !in podName && '=' !in podName)
      && forall u | u in m.peerURLs :: ',' !in u
  }

  lemma {:induction false} KeyOfEntry(name: string, url: string)
    requires '=' !in name
    ensures Key(name + "=" + url) == name && Value(name + "=" + url) == url
  {
    var e := name + "=" + url;
    if name != "" {
      KeyOfEntry(name[1..], url);
      assert e[1..] == name[1..] + "=" + url;
      assert [name[0]] + name[1..] == name;
      assert e[0] == name[0] && name[0] in name;
    }
  }

  lemma ParseOneMore(entries: seq<string>, name: string, url: string, n: string)
    requires '=' !in name
    ensures URLsIn(ParseEntries(entries + [name + "=" + url]), n)
         == URLsIn(ParseEntries(entries), n) + if name == n then [url] else []
  {
    var all := entries + [name + "=" + url];
    assert all[..|all| - 1] == entries && all[|all| - 1] == name + "=" + url != "";
    KeyOfEntry(name, url);
  }

  lemma {:induction false} ParseMember(entries: seq<string>, m: Member, podName: string, k: nat, n: string)
    requires '=' !in NameFor(m, podName) && k <= |m.peerURLs|
    ensures URLsIn(ParseEntries(entries + EntriesOf(m, podName)[..k]), n)
      == URLsIn(ParseEntries(entries), n) + if NameFor(m, podName) == n then m.peerURLs[..k] else []
  {
    var mine := EntriesOf(m, podName);
    hide ParseEntries, URLsIn;
    if k == 0 {
      assert entries + mine[..0] == entries;
      assert URLsIn(ParseEntries(entries), n) + [] == URLsIn(ParseEntries(entries), n);
    } else {
      ParseMember(entries, m, podName, k - 1, n);
      assert entries + mine[..k] == (entries + mine[..k - 1]) + [NameFor(m, podName) + "=" + m.peerURLs[k - 1]];
      ParseOneMore(entries + mine[..k - 1], NameFor(m, podName), m.peerURLs[k - 1], n);
      assert m.peerURLs[..k] == m.peerURLs[..k - 1] + [m.peerURLs[k - 1]];
    }
  }

  lemma {:induction false} ParseConfig(members: seq<Member>, podName: string, name: string)
    requires forall m | m in members :: '=' !in NameFor(m, podName)
    ensures URLsIn(ParseEntries(BuildClusterConfig(members, podName)), name) == URLsUnder(name, members, podName)
  {
    if members != [] {
      var init, last := members[..|members| - 1], members[|members| - 1];
      assert members == init + [last];
      ParseConfig(init, podName, name);
      ParseMember(BuildClusterConfig(init, podName), last, podName, |last.peerURLs|, name);
      assert EntriesOf(last, podName)[..|last.peerURLs|] == EntriesOf(last, podName);
      assert last.peerURLs[..|last.peerURLs|] == last.peerURLs;
    }
  }

  lemma {:induction false} ConfigIsCommaFree(members: seq<Member>, podName: string)
    requires SeparatorFree(members, podName)
    ensures forall e | e in BuildClusterConfig(members, podName) :: ',' !in e
  {
    if members != [] {
      var init, last := members[..|members| - 1], members[|members| - 1];
      assert members == init + [last];
      ConfigIsCommaFree(init, podName);
      forall i | 0 <= i < |last.peerURLs| ensures ',' !in EntriesOf(last, podName)[i] {
        assert last.peerURLs[i] in last.peerURLs;
      }
    }
  }

  /** For every list: etcd reads, under each name, exactly the URLs of the members written under that name, in order. */
  lemma ParseOfWritten(members: seq<Member>, podName: string, name: string)
    requires SeparatorFree(members, podName)
    ensures URLsIn(Parse(Join(BuildClusterConfig(members, podName), ',')), name) == URLsUnder(name, members, podName)
  {
    var entries := BuildClusterConfig(members, podName);
    ConfigIsCommaFree(members, podName);
    ParseConfig(members, podName, name);
    if entries == [] {
      assert Split("", ',') == [""] && [""][..0] == [];
    } else {
      SplitOfJoin(entries, ',');
    }
  }

  lemma {:induction false} URLsUnderOne(members: seq<Member>, podName: string, i: nat)
    requires i < |members|
    requires forall j | 0 <= j < |members| && j != i :: NameFor(members[j], podName) != NameFor(members[i], podName)
                                                    || members[j].peerURLs == []
    ensures URLsUnder(NameFor(members[i], podName), members, podName) == members[i].peerURLs
  {
    var n := |members| - 1;
    var init := members[..n];
    if i < n {
      URLsUnderOne(init, podName, i);
    } else {
      NoURLsUnder(init, podName, NameFor(members[i], podName));
    }
  }

  lemma {:induction false} NoURLsUnder(members: seq<Member>, podName: string, name: string)
    requires forall j | 0 <= j < |members| :: NameFor(members[j], podName) != name || members[j].peerURLs == []
    ensures URLsUnder(name, members, podName) == []
  {
    if members != [] {
      NoURLsUnder(members[..|members| - 1], podName, name);
    }
  }

  lemma {:induction false} URLsUnderLength(members: seq<Member>, podName: string, i: nat, j: nat)
    requires i < j < |members| && NameFor(members[i], podName) == NameFor(members[j], podName)
    ensures |URLsUnder(NameFor(members[i], podName), members, podName)| >= |members[i].peerURLs| + |members[j].peerURLs|
  {
    var n := |members| - 1;
    if j < n {
      URLsUnderLength(members[..n], podName, i, j);
    } else {
      URLsUnderAtLeast(members[..n], podName, i);
    }
  }

  lemma {:induction false} URLsUnderAtLeast(members: seq<Member>, podName: string, i: nat)
    requires i < |members|
    ensures |URLsUnder(NameFor(members[i], podName), members, podName)| >= |members[i].peerURLs|
  {
    if i < |members| - 1 {
      URLsUnderAtLeast(members[..|members| - 1], podName, i);
    }
  }

  /**
   * Member i is read back with exactly its own URLs if and only if no other member is written under its name: for
   * this pod's unnamed entry, if and only if it is the only unnamed one and nobody else bears the pod's name.
   */
  lemma MemberReadBackIff(members: seq<Member>, podName: string, i: nat)
    requires SeparatorFree(members, podName) && i < |members|
    ensures URLsIn(Parse(Join(BuildClusterConfig(members, podName), ',')), NameFor(members[i], podName))
         == members[i].peerURLs
       <==> forall j | 0 <= j < |members| && j != i ::
              NameFor(members[j], podName) != NameFor(members[i], podName) || members[j].peerURLs == []
  {
    ParseOfWritten(members, podName, NameFor(members[i], podName));
    if j :| 0 <= j < |members| && j != i && NameFor(members[j], podName) == NameFor(members[i], podName)
            && members[j].peerURLs != [] {
      if i < j {
        URLsUnderLength(members, podName, i, j);
      } else {
        URLsUnderLength(members, podName, j, i);
      }
    } else {
      URLsUnderOne(members, podName, i);
    }
  }

  /** The text a founding pod writes is the text a join would write for the one-member list of that pod. */
  lemma FoundingFormAgrees(podName: string, ips: seq<string>, port: string, m: Member)
    requires m.peerURLs == PeerURLs(ips, port) && (m.name == "" || m.name == podName)
    ensures BuildPeerEndpoints(podName, ips, port) == BuildClusterConfig([m], podName)
  {
    var a, b := BuildPeerEndpoints(podName, ips, port), EntriesOf(m, podName);
    assert [m][..0] == [];
    assert BuildClusterConfig([m], podName) == BuildClusterConfig([], podName) + b == b;
    forall i | 0 <= i < |ips| ensures a[i] == b[i] {
      assert podName + "=" + ("https://" + ips[i]) + ":" + port == podName + "=" + ("https://" + ips[i] + ":" + port);
    }
  }
}
