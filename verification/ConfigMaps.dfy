/** The ConfigMap that carries the host map as text, and the program that keeps it in step with its own copy. */
module ConfigMaps {
  import opened Base
  import opened Text
  import opened HostMaps
  import D = Discovery

  /** Master address -> the node's addresses, and the same as the ConfigMap's data. */
  type Hosts = map<string, set<string>>
  type Texts = map<string, string>

  datatype ConfigMap = ConfigMap(data: Texts, deleting: bool)

  // ---------------------------------------------------------------- reading and writing one entry

  function ParseEntry(v: string): (ips: set<string>)
    ensures ips != {}
  {
    var parts := Split(v, ',');
    var trimmed := set p | p in parts :: TrimSpace(p);
    assert parts[0] in parts && TrimSpace(parts[0]) in trimmed;
    trimmed
  }

  /** What survives the text form: trimmed and free of commas. */
  predicate Writable(ip: string) {
    Trimmed(ip) && ',' !in ip
  }

  lemma TrimmedHasPart(s: string)
    ensures forall c | c in TrimSpace(s) :: c in s
  {
    var l := TrimLeftParts(s);
    assert TrimSpace(s) <= TrimLeft(s);
  }

  /** An entry is read as the set of its comma-separated pieces without the white space around them. */
  lemma ParsedIff(pieces: seq<string>, ip: string)
    requires pieces != [] && forall p | p in pieces :: ',' !in p
    ensures ip in ParseEntry(Join(pieces, ',')) <==> exists p :: p in pieces && TrimsTo(p, ip)
  {
    SplitOfJoin(pieces, ',');
    hide TrimSpace, TrimsTo, Split, Join;
    forall p ensures TrimSpace(p) == ip <==> TrimsTo(p, ip) {
      TrimSpaceIff(p, ip);
    }
  }

  lemma ParsedIsWritable(v: string, ip: string)
    requires ip in ParseEntry(v)
    ensures Writable(ip)
  {
    var p :| p in Split(v, ',') && ip == TrimSpace(p);
    TrimmedHasPart(p);
  }

  /**
   * One entry read back. Whatever the order in which the set was listed, the reader gets that set back exactly when
   * there was something to write and every address is writable; an empty set comes back as the set of the empty text.
   */
  lemma EntryRoundTripIff(list: seq<string>)
    ensures ParseEntry(Join(list, ',')) == ToSet(list) <==> list != [] && forall ip | ip in list :: Writable(ip)
  {
    var v := Join(list, ',');
    if list != [] && forall ip | ip in list :: Writable(ip) {
      SplitOfJoin(list, ',');
      forall x ensures x in ParseEntry(v) <==> x in list {
        if x in list {
          assert TrimSpace(x) == x;
        }
      }
      assert ParseEntry(v) == ToSet(list);
    } else if list == [] {
      assert ToSet(list) == {};
    } else {
      var ip :| ip in list && !Writable(ip);
      assert ip in ToSet(list);
      if ip in ParseEntry(v) {
        ParsedIsWritable(v, ip);
      }
    }
  }

  // ---------------------------------------------------------------- the whole map

  function ParseData(t: Texts): (h: Hosts)
    ensures h.Keys == t.Keys
  {
    map k | k in t :: ParseEntry(t[k])
  }

  ghost predicate Lists(list: seq<string>, ips: set<string>) {
    NoDup(list) && ToSet(list) == ips
  }

  ghost predicate RendersEntry(v: string, ips: set<string>) {
    exists list :: Lists(list, ips) && v == Join(list, ',')
  }

  /** `t` is one of the texts that writing `h` can give: every set in any order. */
  ghost predicate Renders(t: Texts, h: Hosts) {
    t.Keys == h.Keys && forall k | k in h :: RendersEntry(t[k], h[k])
  }

  ghost predicate WritableHosts(h: Hosts) {
    forall k | k in h :: h[k] != {} && forall ip | ip in h[k] :: Writable(ip)
  }

  lemma RenderedEntry(v: string, ips: set<string>)
    requires RendersEntry(v, ips)
    ensures ParseEntry(v) == ips <==> ips != {} && forall ip | ip in ips :: Writable(ip)
  {
    var list :| Lists(list, ips) && v == Join(list, ',');
    EntryRoundTripIff(list);
    assert forall ip :: ip in list <==> ip in ips;
    assert list == [] <==> ips == {} by {
      if list != [] {
        assert list[0] in ips;
      }
    }
  }

  /** The text round trip, for every host map and every order of writing: it holds exactly for the writable maps. */
  lemma RoundTripIff(t: Texts, h: Hosts)
    requires Renders(t, h)
    ensures ParseData(t) == h <==> WritableHosts(h)
  {
    hide ParseEntry, RendersEntry, Writable;
    forall k | k in h
      ensures ParseEntry(t[k]) == h[k] <==> h[k] != {} && forall ip | ip in h[k] :: Writable(ip)
    {
      RenderedEntry(t[k], h[k]);
    }
    assert ParseData(t) == h <==> forall k | k in h :: ParseEntry(t[k]) == h[k];
  }

  lemma {:induction false} JoinIsTrimmed(list: seq<string>)
    requires list != [] && forall ip | ip in list :: Trimmed(ip)
    ensures Trimmed(Join(list, ','))
    ensures |list| > 1 ==> Join(list, ',') != ""
  {
    if |list| > 1 {
      assert forall ip | ip in list[1..] :: ip in list;
      JoinIsTrimmed(list[1..]);
      var rest := Join(list[1..], ',');
      var v := list[0] + [','] + rest;
      assert v[0] == if list[0] == "" then ',' else list[0][0];
      assert v[|v| - 1] == if rest == "" then ',' else rest[|rest| - 1];
      assert list[0] in list;
    }
  }

  /** The etcd side, reading the same text as a mounted file, gets each address of the node exactly once. */
  lemma NodeFileGivesEachIPOnce(k: string, v: string, ips: set<string>)
    requires RendersEntry(v, ips) && ips != {} && forall ip | ip in ips :: Writable(ip)
    ensures var read := D.ReadIPFile(D.Entry(k, false, true, D.Content(v)));
      read.Some? && Lists(read.value, ips)
  {
    var list :| Lists(list, ips) && v == Join(list, ',');
    assert forall ip :: ip in list <==> ip in ips;
    assert list == [] ==> ips == {};
    JoinIsTrimmed(list);
    SplitOfJoin(list, ',');
  }

  // ---------------------------------------------------------------- a text that somebody else wrote

  lemma {:induction false} TrimOneMore(s: string, c: char)
    requires IsSpace(c)
    ensures TrimLeft(s + [c]) == if TrimLeft(s) == "" then "" else TrimLeft(s) + [c]
    ensures TrimSpace(s + [c]) == TrimSpace(s)
  {
    var t := s + [c];
    if s == "" {
      assert t[1..] == "";
    } else if IsSpace(s[0]) {
      TrimOneMore(s[1..], c);
      assert t[1..] == s[1..] + [c];
    }
    var l := TrimLeft(s);
    if l != "" {
      assert (l + [c])[..|l|] == l;
    }
  }

  function AddLast(parts: seq<string>, c: char): seq<string>
    requires parts != []
  {
    parts[..|parts| - 1] + [parts[|parts| - 1] + [c]]
  }

  lemma AddLastAfter(x: char, parts: seq<string>, c: char)
    requires parts != []
    ensures AddLast([""] + parts, c) == [""] + AddLast(parts, c)
    ensures var more := AddLast(parts, c);
      AddLast([[x] + parts[0]] + parts[1..], c) == [[x] + more[0]] + more[1..]
  {
    if |parts| == 1 {
      assert [x] + (parts[0] + [c]) == ([x] + parts[0]) + [c];
    }
  }

  lemma {:induction false} SplitOneMore(s: string, sep: char, c: char)
    requires c != sep
    ensures Split(s + [c], sep) == AddLast(Split(s, sep), c)
  {
    var t := s + [c];
    if s == "" {
      assert t == [c] && t[1..] == "" && [c] + "" == [c] && "" + [c] == [c];
      assert Split(t, sep) == [[c]] && Split(s, sep) == [""];
    } else {
      SplitOneMore(s[1..], sep, c);
      assert t[1..] == s[1..] + [c];
      var rest := Split(s[1..], sep);
      AddLastAfter(s[0], rest, c);
      assert t[0] == s[0];
      hide AddLast;
      assert Split(t[1..], sep) == AddLast(rest, c);
    }
  }

  lemma SameTrimmed(a: seq<string>, b: seq<string>)
    requires |a| == |b| && forall i | 0 <= i < |a| :: TrimSpace(a[i]) == TrimSpace(b[i])
    ensures (set p | p in a :: TrimSpace(p)) == (set p | p in b :: TrimSpace(p))
  {
    forall i | 0 <= i < |a| ensures a[i] in a && b[i] in b {
    }
  }

  lemma ParseOneBefore(c: char, s: string)
    requires IsSpace(c)
    ensures ParseEntry([c] + s) == ParseEntry(s)
  {
    var t := [c] + s;
    var rest := Split(s, ',');
    assert t[0] == c && t[1..] == s;
    assert Split(t, ',') == [[c] + rest[0]] + rest[1..];
    assert TrimLeft([c] + rest[0]) == TrimLeft(rest[0]) by {
      assert ([c] + rest[0])[1..] == rest[0];
    }
    hide Split, TrimLeft, TrimRight, IsSpace;
    SameTrimmed(Split(t, ','), rest);
  }

  lemma {:induction false} ParseIgnoresLeft(v: string)
    ensures ParseEntry(TrimLeft(v)) == ParseEntry(v)
  {
    hide ParseEntry;
    if v != "" && IsSpace(v[0]) {
      ParseIgnoresLeft(v[1..]);
      ParseOneBefore(v[0], v[1..]);
      assert [v[0]] + v[1..] == v;
    }
  }

  lemma ParseOneMore(s: string, c: char)
    requires IsSpace(c)
    ensures ParseEntry(s + [c]) == ParseEntry(s)
  {
    hide Split, TrimSpace;
    SplitOneMore(s, ',', c);
    var parts := Split(s, ',');
    TrimOneMore(parts[|parts| - 1], c);
    SameTrimmed(Split(s + [c], ','), parts);
  }

  lemma {:induction false} ParseIgnoresRight(v: string)
    ensures ParseEntry(TrimRight(v)) == ParseEntry(v)
  {
    hide ParseEntry;
    if v != "" && IsSpace(v[|v| - 1]) {
      ParseIgnoresRight(v[..|v| - 1]);
      ParseOneMore(v[..|v| - 1], v[|v| - 1]);
      assert v[..|v| - 1] + [v[|v| - 1]] == v;
    }
  }

  /**
   * The controller leaves any text alone that it reads as the right set, but the etcd side reads less leniently: it
   * gets each address once exactly when the pieces of the text are trimmed and all different.
   */
  lemma LeftAloneTextReadIff(k: string, v: string)
    ensures var read := D.ReadIPFile(D.Entry(k, false, true, D.Content(v)));
      read.Some? && (Lists(read.value, ParseEntry(v)) <==> NoDup(read.value) && forall p | p in read.value :: Trimmed(p))
  {
    ParseIgnoresLeft(v);
    ParseIgnoresRight(TrimLeft(v));
    var pieces := Split(TrimSpace(v), ',');
    if Lists(pieces, ParseEntry(v)) {
      forall p | p in pieces ensures Trimmed(p) {
        assert p in ToSet(pieces);
        ParsedIsWritable(v, p);
      }
    } else if forall p | p in pieces :: Trimmed(p) {
      assert forall p | p in pieces :: TrimSpace(p) == p;
      assert ToSet(pieces) == ParseEntry(TrimSpace(v));
    }
  }

  // ---------------------------------------------------------------- the loops

  /** UnsortedList: the members of a set in some order. */
  method UnsortedList(s: set<string>) returns (list: seq<string>)
    ensures Lists(list, s)
  {
    list := [];
    var rest := s;
    while rest != {}
      invariant rest <= s && NoDup(list) && forall x :: x in list <==> x in s && x !in rest
      decreases rest
    {
      var x :| x in rest;
      list := list + [x];
      rest := rest - {x};
    }
  }

  method ParseList(v: string) returns (ips: set<string>)
    ensures ips == ParseEntry(v)
  {
    ips := {};
    var vlist := Split(v, ',');
    for i := 0 to |vlist|
      invariant ips == set p | p in vlist[..i] :: TrimSpace(p)
    {
      assert vlist[..i + 1] == vlist[..i] + [vlist[i]];
      ips := ips + {TrimSpace(vlist[i])};
    }
    assert vlist[..|vlist|] == vlist;
  }

  method GetIPSetFromConfigmap(cm: ConfigMap) returns (current: Hosts)
    ensures current == ParseData(cm.data)
  {
    hide ParseEntry;
    current := map[];
    var rest := cm.data.Keys;
    while rest != {}
      invariant rest <= cm.data.Keys && current.Keys == cm.data.Keys - rest
      invariant forall k | k in current :: current[k] == ParseEntry(cm.data[k])
      decreases rest
    {
      var k :| k in rest;
      var ips := ParseList(cm.data[k]);
      current := current[k := ips];
      rest := rest - {k};
    }
  }

  /** Two maps of sets are equal; the second loop of the source can never find anything. */
  method DeepEqualSets<K(==), V(==)>(s1: map<K, set<V>>, s2: map<K, set<V>>) returns (same: bool)
    ensures same <==> s1 == s2
  {
    assert |s1.Keys| == |s1| && |s2.Keys| == |s2|;
    if |s1| != |s2| {
      return false;
    }
    if |s1| == 0 && |s2| == 0 {
      return true;
    }
    var rest := s1.Keys;
    while rest != {}
      invariant rest <= s1.Keys
      invariant forall k | k in s1 && k !in rest :: k in s2 && s1[k] == s2[k]
      decreases rest
    {
      var k :| k in rest;
      if k !in s2 || s1[k] != s2[k] {
        return false;
      }
      rest := rest - {k};
    }
    rest := s2.Keys;
    SubsetOfSameSize(s1.Keys, s2.Keys);
    while rest != {}
      invariant rest <= s2.Keys
      decreases rest
    {
      var k :| k in rest;
      if k !in s1 {
        return false;
      }
      rest := rest - {k};
    }
    return true;
  }

  // ---------------------------------------------------------------- the synchroniser

  /** The API server's ConfigMap of the configured name. */
  class Server {
    var cm: Option<ConfigMap>

    constructor (cm: Option<ConfigMap>)
      ensures this.cm == cm
    {
      this.cm := cm;
    }
  }

  /** What a reconcile of the ConfigMap finds: the Get may fail, also because there is no such object. */
  predicate NeedsSync(data: Hosts, reachable: bool, cm: Option<ConfigMap>) {
    data != map[] && (!reachable || cm.None? || cm.value.deleting || ParseData(cm.value.data) != data)
  }

  class ConfigMapSync {
    const hosts: HostDict<string, string>

    constructor ()
      ensures fresh(hosts) && Data() == map[]
    {
      hosts := new HostDict();
    }

    function Data(): Hosts
      reads hosts
    {
      hosts.data
    }

    /** A message from the node topic: the copy becomes the message's map, and a trigger follows if that changed it. */
    method OnMessage(origin: Hosts) returns (trigger: bool)
      modifies hosts
      ensures Data() == origin
      ensures trigger <==> old(Data()) != origin
    {
      var changed := hosts.Apply(origin);
      trigger := |changed| > 0;
    }

    method Reconcile(server: Server, reachable: bool) returns (trigger: bool)
      ensures trigger <==> NeedsSync(Data(), reachable, server.cm)
      ensures trigger <==> (
        && Data() != map[]
        && (!reachable || server.cm.None? || server.cm.value.deleting || ParseData(server.cm.value.data) != Data()))
    {
      var data := hosts.data;
      if |data| == 0 {
        return false;
      }
      if !reachable || server.cm.None? {
        return true;
      }
      if server.cm.value.deleting {
        return true;
      }
      var current := GetIPSetFromConfigmap(server.cm.value);
      var same := DeepEqualSets(current, data);
      return !same;
    }

    /** The closure handed to CreateOrUpdate: text that already says the data is left alone, in whatever order it is. */
    method Mutate(desired: ConfigMap) returns (r: ConfigMap)
      ensures r.deleting == desired.deleting
      ensures ParseData(desired.data) == Data() ==> r == desired
      ensures ParseData(desired.data) != Data() ==> Renders(r.data, Data())
    {
      var data := hosts.data;
      var current := GetIPSetFromConfigmap(desired);
      var same := DeepEqualSets(current, data);
      if same {
        return desired;
      }
      var texts := WriteAll();
      return desired.(data := texts);
    }

    method WriteAll() returns (texts: Texts)
      ensures Renders(texts, Data())
    {
      var data := hosts.data;
      hide Lists;
      texts := map[];
      var rest := data.Keys;
      while rest != {}
        invariant rest <= data.Keys && texts.Keys == data.Keys - rest
        invariant forall k | k in texts :: RendersEntry(texts[k], data[k])
        decreases rest
      {
        var k :| k in rest;
        var list := UnsortedList(data[k]);
        texts := texts[k := Join(list, ',')];
        rest := rest - {k};
      }
    }

    /**
     * CreateOrUpdate. The request may be refused, or take effect without an answer, and is not sent when nothing
     * would change. Success means that the stored text reads back as the data, if the data can be written at all; an
     * error leaves the object as it was or as it should be.
     */
    method SyncConfigmap(server: Server, readable: bool, took: bool, answered: bool) returns (ok: bool)
      modifies server
      ensures readable && (Says(Data(), old(server.cm)) || (took && answered)) ==> ok
      ensures ok && WritableHosts(Data()) ==> Says(Data(), server.cm)
      ensures ok ==> readable
      ensures WritableHosts(Data()) ==> (ok <==> readable && (Says(Data(), old(server.cm)) || (took && answered)))
      ensures server.cm == old(server.cm) || Written(Data(), server.cm)
      ensures readable && took && !Says(Data(), old(server.cm)) && WritableHosts(Data()) ==> Says(Data(), server.cm)
      ensures !readable || !took ==> server.cm == old(server.cm)
      ensures Says(Data(), old(server.cm)) ==> server.cm == old(server.cm)
    {
      var data := hosts.data;
      hide ParseData, Renders, WritableHosts;
      if !readable {
        return false;
      }
      var desired := if server.cm.Some? then server.cm.value else ConfigMap(map[], false);
      var r := Mutate(desired);
      if WritableHosts(data) && ParseData(desired.data) != data {
        RoundTripIff(r.data, data);
      }
      if server.cm == Some(r) {
        return true;
      }
      if took {
        server.cm := Some(r);
      }
      return took && answered;
    }
  }

  predicate Says(data: Hosts, cm: Option<ConfigMap>) {
    cm.Some? && ParseData(cm.value.data) == data
  }

  ghost predicate Written(data: Hosts, cm: Option<ConfigMap>) {
    cm.Some? && (Renders(cm.value.data, data) || ParseData(cm.value.data) == data)
  }
}
