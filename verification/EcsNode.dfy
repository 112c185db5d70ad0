/** The owner of the host map: one entry per ECSNode object, from the addresses of its endpoints. */
module EcsNode {
  import opened Base
  import opened Text
  import opened ConfigMaps

  datatype Endpoint = Endpoint(name: string, ipnet: string)

  datatype Node = Node(endpoints: seq<Option<Endpoint>>, deleting: bool)

  datatype Interfaces = Interfaces(known: set<string>, master: string)

  // ---------------------------------------------------------------- one node's addresses

  function Address(ep: Endpoint): string {
    TrimSpace(Split(ep.ipnet, '/')[0])
  }

  /** The endpoint is there, names a configured interface and has an address. */
  predicate Usable(ep: Option<Endpoint>, ifs: Interfaces) {
    ep.Some? && Address(ep.value) != "" && ep.value.name in ifs.known
  }

  predicate OnMaster(ep: Option<Endpoint>, ifs: Interfaces) {
    Usable(ep, ifs) && ep.value.name == ifs.master
  }

  function IPsOf(eps: seq<Option<Endpoint>>, ifs: Interfaces): set<string> {
    set ep | ep in eps && Usable(ep, ifs) :: Address(ep.value)
  }

  /** The last endpoint on the master interface wins; "" when there is none. */
  function MasterOf(eps: seq<Option<Endpoint>>, ifs: Interfaces): (master: string)
    ensures master != "" <==> exists ep :: ep in eps && OnMaster(ep, ifs)
    ensures master != "" ==> master in IPsOf(eps, ifs)
  {
    if eps == [] then ""
    else
      var init, last := eps[..|eps| - 1], eps[|eps| - 1];
      assert eps == init + [last];
      if OnMaster(last, ifs) then Address(last.value) else MasterOf(init, ifs)
  }

  lemma {:induction false} MasterIsTheLast(eps: seq<Option<Endpoint>>, ifs: Interfaces) returns (k: nat)
    requires MasterOf(eps, ifs) != ""
    ensures k < |eps| && OnMaster(eps[k], ifs) && Address(eps[k].value) == MasterOf(eps, ifs)
    ensures forall j | k < j < |eps| :: !OnMaster(eps[j], ifs)
  {
    var n := |eps| - 1;
    hide Address;
    if OnMaster(eps[n], ifs) {
      k := n;
    } else {
      k := MasterIsTheLast(eps[..n], ifs);
    }
  }

  lemma OneMoreEndpoint(eps: seq<Option<Endpoint>>, ep: Option<Endpoint>, ifs: Interfaces)
    ensures MasterOf(eps + [ep], ifs) == if OnMaster(ep, ifs) then Address(ep.value) else MasterOf(eps, ifs)
    ensures IPsOf(eps + [ep], ifs) == IPsOf(eps, ifs) + if Usable(ep, ifs) then {Address(ep.value)} else {}
  {
    hide Address;
    assert (eps + [ep])[..|eps|] == eps;
  }

  /** The body of the loop over a node's endpoints. */
  method Collect(ep: Option<Endpoint>, ifs: Interfaces, master: string, ips: set<string>)
    returns (master': string, ips': set<string>)
    ensures master' == if OnMaster(ep, ifs) then Address(ep.value) else master
    ensures ips' == ips + if Usable(ep, ifs) then {Address(ep.value)} else {}
  {
    master', ips' := master, ips;
    if ep.None? {
      return;
    }
    var ipstr := TrimSpace(Split(ep.value.ipnet, '/')[0]);
    if |ipstr| == 0 || ep.value.name !in ifs.known {
      return;
    }
    if ep.value.name == ifs.master {
      master' := ipstr;
    }
    ips' := ips + {ipstr};
  }

  method GetIpmap(node: Node, ifs: Interfaces) returns (master: string, ips: set<string>)
    ensures master == MasterOf(node.endpoints, ifs)
    ensures ips == IPsOf(node.endpoints, ifs)
  {
    master, ips := "", {};
    var eps := node.endpoints;
    assert eps[..0] == [] && IPsOf([], ifs) == {};
    for i := 0 to |eps|
      invariant master == MasterOf(eps[..i], ifs)
      invariant ips == IPsOf(eps[..i], ifs)
    {
      hide MasterOf, IPsOf, Address, Usable, OnMaster;
      assert eps[..i + 1] == eps[..i] + [eps[i]];
      OneMoreEndpoint(eps[..i], eps[i], ifs);
      master, ips := Collect(eps[i], ifs, master, ips);
    }
    assert eps[..|eps|] == eps;
  }

  // ---------------------------------------------------------------- what an address is

  /** The text of an ipnet says this host: white space around it is ignored, and so is everything from a '/' on. */
  ghost predicate SaysHost(ipnet: string, host: string) {
    '/' !in host && exists head, mask ::
      '/' !in head && TrimsTo(head, host) && ipnet == head + mask && (mask == "" || mask[0] == '/')
  }

  lemma SplitBeforeMask(head: string, mask: string)
    requires '/' !in head && (mask == "" || mask[0] == '/')
    ensures Split(head + mask, '/')[0] == head
  {
    if mask == "" {
      SplitFirst(head, "", '/');
      assert head + mask == head;
    } else {
      SplitFirst(head, mask[1..], '/');
      assert head + mask == head + ['/'] + mask[1..];
    }
  }

  lemma AddressIff(ep: Endpoint, host: string)
    ensures Address(ep) == host <==> SaysHost(ep.ipnet, host)
  {
    hide TrimSpace, TrimsTo, Split;
    if Address(ep) == host {
      var mask := SplitHead(ep.ipnet, '/');
      var head := Split(ep.ipnet, '/')[0];
      assert head in Split(ep.ipnet, '/');
      TrimSpaceIff(head, host);
      TrimmedHasPart(head);
      assert '/' !in head && ep.ipnet == head + mask;
    }
    if SaysHost(ep.ipnet, host) {
      var head, mask :|
        '/' !in head && TrimsTo(head, host) && ep.ipnet == head + mask && (mask == "" || mask[0] == '/');
      SplitBeforeMask(head, mask);
      TrimSpaceIff(head, host);
    }
  }

  /** The endpoint is on a configured interface and its ipnet says this host. */
  ghost predicate Gives(ep: Option<Endpoint>, ifs: Interfaces, host: string) {
    ep.Some? && ep.value.name in ifs.known && host != "" && SaysHost(ep.value.ipnet, host)
  }

  lemma GivesIff(ep: Option<Endpoint>, ifs: Interfaces, host: string)
    ensures Gives(ep, ifs, host) <==> Usable(ep, ifs) && Address(ep.value) == host
  {
    hide SaysHost, Address;
    if ep.Some? {
      AddressIff(ep.value, host);
    }
  }

  /** The addresses of a node are exactly the hosts that its endpoints on configured interfaces say. */
  lemma AddressesAre(eps: seq<Option<Endpoint>>, ifs: Interfaces, host: string)
    ensures host in IPsOf(eps, ifs) <==> exists ep :: ep in eps && Gives(ep, ifs, host)
  {
    forall ep ensures Gives(ep, ifs, host) <==> Usable(ep, ifs) && Address(ep.value) == host {
      GivesIff(ep, ifs, host);
    }
    hide Gives, Address, Usable;
  }

  ghost predicate GivesMaster(ep: Option<Endpoint>, ifs: Interfaces, host: string) {
    Gives(ep, ifs, host) && ep.value.name == ifs.master
  }

  ghost predicate MasterAt(eps: seq<Option<Endpoint>>, ifs: Interfaces, host: string, k: nat) {
    && k < |eps| && GivesMaster(eps[k], ifs, host)
    && forall j, other | k < j < |eps| :: !GivesMaster(eps[j], ifs, other)
  }

  /** The master address is the host that the last endpoint on the master interface says, of those that say one. */
  lemma MasterIs(eps: seq<Option<Endpoint>>, ifs: Interfaces, host: string)
    requires host != ""
    ensures MasterOf(eps, ifs) == host <==> exists k: nat :: MasterAt(eps, ifs, host, k)
  {
    forall ep, h ensures GivesMaster(ep, ifs, h) <==> OnMaster(ep, ifs) && Address(ep.value) == h {
      GivesIff(ep, ifs, h);
    }
    hide Gives, GivesMaster, OnMaster, Usable, Address, MasterOf;
    if MasterOf(eps, ifs) != "" {
      var m := MasterIsTheLast(eps, ifs);
      assert MasterAt(eps, ifs, MasterOf(eps, ifs), m);
      if k: nat :| MasterAt(eps, ifs, host, k) {
        assert OnMaster(eps[k], ifs) && !(m < k);
        assert GivesMaster(eps[m], ifs, MasterOf(eps, ifs)) && !(k < m);
      }
    } else {
      assert forall k | 0 <= k < |eps| :: eps[k] in eps && !GivesMaster(eps[k], ifs, host);
    }
  }

  lemma OneEndpoint(ep: Endpoint, ifs: Interfaces)
    requires Address(ep) != "" && ep.name in ifs.known
    ensures IPsOf([Some(ep)], ifs) == {Address(ep)}
    ensures MasterOf([Some(ep)], ifs) == if ep.name == ifs.master then Address(ep) else ""
  {
    hide Address;
    OneMoreEndpoint([], Some(ep), ifs);
    assert [] + [Some(ep)] == [Some(ep)];
  }

  /** In particular the mask is dropped: an address with any mask, or with none, gives the address alone. */
  lemma MaskIsDropped(name: string, host: string, mask: string, ifs: Interfaces)
    requires name in ifs.known && host != "" && Trimmed(host) && '/' !in host
    ensures var masked, bare := Some(Endpoint(name, host + "/" + mask)), Some(Endpoint(name, host));
      && IPsOf([masked], ifs) == IPsOf([bare], ifs) == {host}
      && MasterOf([masked], ifs) == MasterOf([bare], ifs) == if name == ifs.master then host else ""
  {
    hide IPsOf, MasterOf, Split, TrimSpace;
    SplitBeforeMask(host, "/" + mask);
    SplitBeforeMask(host, "");
    assert host + "/" + mask == host + ("/" + mask) && host + "" == host;
    OneEndpoint(Endpoint(name, host + "/" + mask), ifs);
    OneEndpoint(Endpoint(name, host), ifs);
  }

  // ---------------------------------------------------------------- the map and its reconciler

  /** What one reconcile is told by the API server: the list, asked for until it succeeds once, then the object. */
  datatype Event = Event(list: Option<seq<Node>>, get: Option<Node>)

  datatype Publisher = Publisher(hosts: Hosts, done: bool)

  function AllListed(hosts: Hosts, nodes: seq<Node>, ifs: Interfaces): Hosts {
    if nodes == [] then hosts
    else
      var before, eps := AllListed(hosts, nodes[..|nodes| - 1], ifs), nodes[|nodes| - 1].endpoints;
      if MasterOf(eps, ifs) == "" then before else before[MasterOf(eps, ifs) := IPsOf(eps, ifs)]
  }

  function WithNode(hosts: Hosts, node: Node, ifs: Interfaces): Hosts {
    var mip := MasterOf(node.endpoints, ifs);
    if mip == "" then hosts
    else if node.deleting then hosts - {mip}
    else hosts[mip := IPsOf(node.endpoints, ifs)]
  }

  function After(p: Publisher, e: Event, ifs: Interfaces): Publisher {
    if !p.done then
      if e.list.None? then p else Publisher(AllListed(p.hosts, e.list.value, ifs), true)
    else if e.get.None? then p
    else p.(hosts := WithNode(p.hosts, e.get.value, ifs))
  }

  /** Whether a trigger is sent: always on the first list and on a deletion, else only when the entry changed. */
  predicate Publishes(p: Publisher, e: Event, ifs: Interfaces) {
    if !p.done then e.list.Some?
    else
      && e.get.Some? && MasterOf(e.get.value.endpoints, ifs) != ""
      && (e.get.value.deleting || WithNode(p.hosts, e.get.value, ifs) != p.hosts)
  }

  /** Of the listed nodes with the same master address the last wins; other entries stay as they were. */
  lemma {:induction false} LastListedWins(hosts: Hosts, nodes: seq<Node>, ifs: Interfaces, k: string)
    requires k != ""
    ensures var after := AllListed(hosts, nodes, ifs);
      if exists n: nat :: LastWithMaster(nodes, ifs, k, n) then
        exists n: nat :: LastWithMaster(nodes, ifs, k, n) && k in after && after[k] == IPsOf(nodes[n].endpoints, ifs)
      else (k in after <==> k in hosts) && (k in hosts ==> after[k] == hosts[k])
  {
    hide MasterOf, IPsOf;
    if nodes != [] {
      var last := |nodes| - 1;
      var init := nodes[..last];
      LastListedWins(hosts, init, ifs, k);
      if MasterOf(nodes[last].endpoints, ifs) == k {
        assert LastWithMaster(nodes, ifs, k, last);
      } else {
        forall n: nat ensures LastWithMaster(nodes, ifs, k, n) <==> LastWithMaster(init, ifs, k, n) {
          if LastWithMaster(init, ifs, k, n) {
            assert forall j | n < j < |nodes| :: j == last || nodes[j] == init[j];
          }
          if LastWithMaster(nodes, ifs, k, n) {
            assert n != last && forall j | n < j < last :: nodes[j] == init[j];
          }
        }
      }
    }
  }

  ghost predicate LastWithMaster(nodes: seq<Node>, ifs: Interfaces, k: string, n: nat) {
    && n < |nodes| && MasterOf(nodes[n].endpoints, ifs) == k
    && forall j | n < j < |nodes| :: MasterOf(nodes[j].endpoints, ifs) != k
  }

  /** A later reconcile of an object with a master address makes its entry say the object, and touches no other entry. */
  lemma ReconcileSaysTheNode(p: Publisher, e: Event, ifs: Interfaces)
    requires p.done && e.get.Some? && MasterOf(e.get.value.endpoints, ifs) != ""
    ensures var hosts, node := After(p, e, ifs).hosts, e.get.value;
      var mip := MasterOf(node.endpoints, ifs);
      && (mip in hosts <==> !node.deleting)
      && (!node.deleting ==> forall ip ::
            ip in hosts[mip] <==> exists ep :: ep in node.endpoints && Usable(ep, ifs) && Address(ep.value) == ip)
      && (forall k | k != mip :: (k in hosts <==> k in p.hosts) && (k in hosts ==> hosts[k] == p.hosts[k]))
  {
    hide Address, MasterOf;
  }

  /** No change of the map goes unannounced. */
  lemma ChangeIsPublished(p: Publisher, e: Event, ifs: Interfaces)
    ensures After(p, e, ifs).hosts != p.hosts ==> Publishes(p, e, ifs)
  {
    if p.done && e.get.Some? && MasterOf(e.get.value.endpoints, ifs) == "" {
      assert WithNode(p.hosts, e.get.value, ifs) == p.hosts;
    }
  }

  class EcsNode {
    const ifs: Interfaces
    var hostips: Hosts
    var done: bool

    constructor (ifs: Interfaces)
      ensures this.ifs == ifs && State() == Publisher(map[], false)
    {
      this.ifs := ifs;
      hostips, done := map[], false;
    }

    function State(): Publisher
      reads this
    {
      Publisher(hostips, done)
    }

    method OnceInit(list: Option<seq<Node>>) returns (first: bool, failed: bool)
      modifies this
      ensures failed <==> !old(done) && list.None?
      ensures first <==> !old(done) && list.Some?
      ensures State() == if first then Publisher(AllListed(old(hostips), list.value, ifs), true) else old(State())
    {
      if done {
        return false, false;
      }
      if list.None? {
        return false, true;
      }
      var nodes := list.value;
      for n := 0 to |nodes|
        invariant !done && hostips == AllListed(old(hostips), nodes[..n], ifs)
      {
        assert nodes[..n + 1][..n] == nodes[..n];
        var mip, ipset := GetIpmap(nodes[n], ifs);
        if mip == "" {
          continue;
        }
        hostips := hostips[mip := ipset];
      }
      assert nodes[..|nodes|] == nodes;
      done := true;
      return true, false;
    }

    /** `publish` is the deferred send on the trigger channel. */
    method Reconcile(e: Event) returns (publish: bool)
      modifies this
      ensures State() == After(old(State()), e, ifs)
      ensures publish <==> Publishes(old(State()), e, ifs)
      ensures old(done) && e.get.Some? ==>
        var mip, ips := MasterOf(e.get.value.endpoints, ifs), IPsOf(e.get.value.endpoints, ifs);
        && hostips == (if mip == "" then old(hostips)
                       else if e.get.value.deleting then old(hostips) - {mip} else old(hostips)[mip := ips])
        && (publish <==> mip != "" && (e.get.value.deleting || mip !in old(hostips) || old(hostips)[mip] != ips))
      ensures (if old(done) then e.get.None? else e.list.None?) ==> State() == old(State()) && !publish
      ensures !old(done) && e.list.Some? ==> done && publish && hostips == AllListed(old(hostips), e.list.value, ifs)
    {
      var first, failed := OnceInit(e.list);
      if failed || first {
        return first;
      }
      if e.get.None? {
        return false;
      }
      publish := Update(e.get.value);
    }

    method Update(node: Node) returns (publish: bool)
      modifies this`hostips
      ensures hostips == WithNode(old(hostips), node, ifs)
      ensures publish <==>
        MasterOf(node.endpoints, ifs) != "" && (node.deleting || hostips != old(hostips))
    {
      var mip, newips := GetIpmap(node, ifs);
      hide MasterOf, IPsOf;
      if mip == "" {
        return false;
      }
      if node.deleting {
        hostips := hostips - {mip};
        return true;
      }
      if mip !in hostips || newips != hostips[mip] {
        hostips := hostips[mip := newips];
        return true;
      }
      assert hostips == hostips[mip := newips];
      return false;
    }
  }

  // ---------------------------------------------------------------- every reachable map can be written and read back

  /** Endpoint addresses contain no comma: an assumption on the ECSNode objects, which nothing in the code checks. */
  predicate CommaFree(node: Node) {
    forall ep | ep in node.endpoints && ep.Some? :: ',' !in ep.value.ipnet
  }

  ghost predicate CommaFreeEvent(e: Event) {
    && (e.list.Some? ==> forall n | n in e.list.value :: CommaFree(n))
    && (e.get.Some? ==> CommaFree(e.get.value))
  }

  /** Each master address is one of its node's addresses, and every address is trimmed, non-empty and has no mask. */
  ghost predicate Clean(hosts: Hosts) {
    forall k | k in hosts :: k in hosts[k] && forall ip | ip in hosts[k] :: ip != "" && Trimmed(ip) && '/' !in ip
  }

  /** And every address is free of commas. */
  ghost predicate OwnKey(hosts: Hosts) {
    Clean(hosts) && forall k, ip | k in hosts && ip in hosts[k] :: Writable(ip)
  }

  lemma {:induction false} SplitFindsParts(s: string, sep: char, c: char)
    requires c !in s
    ensures forall p | p in Split(s, sep) :: c !in p
  {
    if s != "" {
      SplitFindsParts(s[1..], sep, c);
      var rest := Split(s[1..], sep);
      assert rest[0] in rest;
      assert forall p | p in rest[1..] :: p in rest;
    }
  }

  lemma AddressesAreClean(node: Node, ifs: Interfaces)
    ensures forall ip | ip in IPsOf(node.endpoints, ifs) ::
      ip != "" && Trimmed(ip) && '/' !in ip && (CommaFree(node) ==> ',' !in ip)
  {
    forall ip | ip in IPsOf(node.endpoints, ifs)
      ensures ip != "" && Trimmed(ip) && '/' !in ip && (CommaFree(node) ==> ',' !in ip)
    {
      var ep :| ep in node.endpoints && Usable(ep, ifs) && ip == Address(ep.value);
      var p := Split(ep.value.ipnet, '/')[0];
      assert p in Split(ep.value.ipnet, '/');
      TrimmedHasPart(p);
      if ',' !in ep.value.ipnet {
        SplitFindsParts(ep.value.ipnet, '/', ',');
      }
    }
  }

  /** The nodes that an event tells of. */
  function NodesOf(e: Event): seq<Node> {
    (if e.list.Some? then e.list.value else []) + if e.get.Some? then [e.get.value] else []
  }

  ghost predicate EntryOf(nodes: seq<Node>, ifs: Interfaces, k: string, ips: set<string>) {
    exists n :: n in nodes && k == MasterOf(n.endpoints, ifs) != "" && ips == IPsOf(n.endpoints, ifs)
  }

  lemma {:induction false} ListedEntries(hosts: Hosts, nodes: seq<Node>, ifs: Interfaces)
    ensures var after := AllListed(hosts, nodes, ifs);
      forall k | k in after :: (k in hosts && after[k] == hosts[k]) || EntryOf(nodes, ifs, k, after[k])
  {
    hide MasterOf, IPsOf;
    if nodes != [] {
      var init, last := nodes[..|nodes| - 1], nodes[|nodes| - 1];
      assert nodes == init + [last];
      ListedEntries(hosts, init, ifs);
      assert forall k, ips | EntryOf(init, ifs, k, ips) :: EntryOf(nodes, ifs, k, ips);
    }
  }

  /** Every entry of the map is an old one or that of a node the event tells of. */
  lemma EntriesComeFrom(p: Publisher, e: Event, ifs: Interfaces)
    ensures var after := After(p, e, ifs).hosts;
      forall k | k in after :: (k in p.hosts && after[k] == p.hosts[k]) || EntryOf(NodesOf(e), ifs, k, after[k])
  {
    hide MasterOf, IPsOf, AllListed;
    if e.list.Some? {
      ListedEntries(p.hosts, e.list.value, ifs);
      assert forall k, ips | EntryOf(e.list.value, ifs, k, ips) :: EntryOf(NodesOf(e), ifs, k, ips);
    }
    if e.get.Some? {
      assert e.get.value in NodesOf(e);
    }
  }

  /** Every reconcile keeps the map clean, whatever the ECSNode objects say: no key and no address has a mask. */
  lemma ReconcileKeepsClean(p: Publisher, e: Event, ifs: Interfaces)
    requires Clean(p.hosts)
    ensures Clean(After(p, e, ifs).hosts)
  {
    hide IPsOf, MasterOf, After, NodesOf;
    EntriesComeFrom(p, e, ifs);
    var after := After(p, e, ifs).hosts;
    forall k | k in after && EntryOf(NodesOf(e), ifs, k, after[k])
      ensures k in after[k] && forall ip | ip in after[k] :: ip != "" && Trimmed(ip) && '/' !in ip
    {
      var n :| n in NodesOf(e) && k == MasterOf(n.endpoints, ifs) != "" && after[k] == IPsOf(n.endpoints, ifs);
      AddressesAreClean(n, ifs);
    }
  }

  /** And if no endpoint has a comma, such that its text reads back. */
  lemma ReconcileKeepsOwn(p: Publisher, e: Event, ifs: Interfaces)
    requires OwnKey(p.hosts) && CommaFreeEvent(e)
    ensures OwnKey(After(p, e, ifs).hosts)
    ensures WritableHosts(After(p, e, ifs).hosts)
  {
    hide IPsOf, MasterOf, After, CommaFree, Clean;
    EntriesComeFrom(p, e, ifs);
    ReconcileKeepsClean(p, e, ifs);
    var after := After(p, e, ifs).hosts;
    forall k, ip | k in after && ip in after[k] && EntryOf(NodesOf(e), ifs, k, after[k]) ensures Writable(ip) {
      var n :| n in NodesOf(e) && k == MasterOf(n.endpoints, ifs) != "" && after[k] == IPsOf(n.endpoints, ifs);
      AddressesAreClean(n, ifs);
    }
    CleanIsNotEmpty(after);
  }

  lemma CleanIsNotEmpty(hosts: Hosts)
    requires Clean(hosts)
    ensures forall k | k in hosts :: hosts[k] != {}
  {
  }
}
