/** The string functions of the Go standard library that the programs rely on. */
module Text {
  import opened Base

  /** strings.Join with a one-character separator. */
  function Join(parts: seq<string>, sep: char): string {
    if |parts| == 0 then ""
    else if |parts| == 1 then parts[0]
    else parts[0] + [sep] + Join(parts[1..], sep)
  }

  /** strings.Split with a one-character separator: never an empty list. */
  function Split(s: string, sep: char): (parts: seq<string>)
    ensures |parts| > 0
    ensures forall p | p in parts :: sep !in p
  {
    if s == "" then [""]
    else if s[0] == sep then [""] + Split(s[1..], sep)
    else
      var rest := Split(s[1..], sep);
      [[s[0]] + rest[0]] + rest[1..]
  }

  lemma {:induction false} SplitFirst(head: string, tail: string, sep: char)
    requires sep !in head
    ensures Split(head, sep) == [head]
    ensures Split(head + [sep] + tail, sep) == [head] + Split(tail, sep)
  {
    var s := head + [sep] + tail;
    if head == "" {
      assert s == [sep] + tail && s[1..] == tail;
    } else {
      SplitFirst(head[1..], tail, sep);
      assert s[1..] == head[1..] + [sep] + tail;
      assert [head[0]] + head[1..] == head;
      assert s[0] == head[0] && head[0] in head;
    }
  }

  /** Splitting undoes joining, for every non-empty list of pieces free of the separator. */
  lemma {:induction false} SplitOfJoin(parts: seq<string>, sep: char)
    requires |parts| > 0
    requires forall p | p in parts :: sep !in p
    ensures Split(Join(parts, sep), sep) == parts
  {
    if |parts| == 1 {
      SplitFirst(parts[0], "", sep);
      assert parts == [parts[0]];
    } else {
      SplitOfJoin(parts[1..], sep);
      SplitFirst(parts[0], Join(parts[1..], sep), sep);
      assert parts == [parts[0]] + parts[1..];
    }
  }

  /** And joining undoes splitting. */
  lemma {:induction false} JoinOfSplit(s: string, sep: char)
    ensures Join(Split(s, sep), sep) == s
  {
    if s != "" {
      JoinOfSplit(s[1..], sep);
      var rest := Split(s[1..], sep);
      assert s == [s[0]] + s[1..];
      if s[0] == sep {
        assert ([""] + rest)[1..] == rest;
      } else {
        assert ([[s[0]] + rest[0]] + rest[1..])[1..] == rest[1..];
      }
    }
  }

  /** unicode.IsSpace. */
  predicate IsSpace(c: char) {
    var n := c as int;
    9 <= n <= 13 || n in {0x20, 0x85, 0xA0, 0x1680, 0x2028, 0x2029, 0x202F, 0x205F, 0x3000} || 0x2000 <= n <= 0x200A
  }

  predicate Trimmed(s: string) {
    s == "" || (!IsSpace(s[0]) && !IsSpace(s[|s| - 1]))
  }

  function TrimLeft(s: string): (t: string)
    ensures t == "" || !IsSpace(t[0])
  {
    if s != "" && IsSpace(s[0]) then TrimLeft(s[1..]) else s
  }

  /** strings.TrimSpace. */
  function TrimSpace(s: string): (t: string)
    ensures Trimmed(t)
    ensures Trimmed(s) ==> t == s
  {
    TrimRight(TrimLeft(s))
  }

  function TrimRight(s: string): (t: string)
    ensures t == "" || !IsSpace(t[|t| - 1])
    ensures t <= s
    ensures (s == "" || !IsSpace(s[|s| - 1])) ==> t == s
  {
    if s != "" && IsSpace(s[|s| - 1]) then TrimRight(s[..|s| - 1]) else s
  }

  predicate Blank(s: string) {
    forall c | c in s :: IsSpace(c)
  }

  /** `t` is what is left of `s` without the white space around it. */
  ghost predicate TrimsTo(s: string, t: string) {
    Trimmed(t) && exists l, r :: Blank(l) && Blank(r) && s == l + t + r
  }

  lemma {:induction false} TrimLeftParts(s: string) returns (l: string)
    ensures Blank(l) && s == l + TrimLeft(s)
  {
    l := "";
    if s != "" && IsSpace(s[0]) {
      l := TrimLeftParts(s[1..]);
      assert s == [s[0]] + s[1..];
      l := [s[0]] + l;
    }
  }

  lemma {:induction false} TrimRightParts(s: string) returns (r: string)
    ensures Blank(r) && s == TrimRight(s) + r
  {
    r := "";
    if s != "" && IsSpace(s[|s| - 1]) {
      r := TrimRightParts(s[..|s| - 1]);
      assert s == s[..|s| - 1] + [s[|s| - 1]];
      r := r + [s[|s| - 1]];
    }
  }

  lemma {:induction false} TrimLeftStrips(l: string, s: string)
    requires Blank(l) && (s == "" || !IsSpace(s[0]))
    ensures TrimLeft(l + s) == s
  {
    if l != "" {
      TrimLeftStrips(l[1..], s);
      assert (l + s)[1..] == l[1..] + s && (l + s)[0] == l[0];
      assert IsSpace(l[0]);
    } else {
      assert l + s == s;
    }
  }

  lemma {:induction false} TrimRightStrips(s: string, r: string)
    requires Blank(r) && (s == "" || !IsSpace(s[|s| - 1]))
    ensures TrimRight(s + r) == s
  {
    var n := |r| - 1;
    if r != "" {
      TrimRightStrips(s, r[..n]);
      assert (s + r)[..|s| + n] == s + r[..n] && (s + r)[|s| + n] == r[n];
      assert IsSpace(r[n]);
    } else {
      assert s + r == s;
    }
  }

  /** strings.TrimSpace strips exactly the white space at both ends. */
  lemma TrimSpaceIff(s: string, t: string)
    ensures TrimSpace(s) == t <==> TrimsTo(s, t)
  {
    hide IsSpace, TrimLeft, TrimRight;
    if TrimSpace(s) == t {
      var l := TrimLeftParts(s);
      var r := TrimRightParts(TrimLeft(s));
      assert s == l + t + r;
    }
    if TrimsTo(s, t) {
      var l, r :| Blank(l) && Blank(r) && s == l + t + r;
      if t == "" {
        assert s == (l + r) + "";
        TrimLeftStrips(l + r, "");
        TrimRightStrips("", "");
        assert "" + "" == "";
      } else {
        assert s == l + (t + r) && (t + r)[0] == t[0];
        TrimLeftStrips(l, t + r);
        TrimRightStrips(t, r);
      }
    }
  }

  /** The first piece is the text before the first separator, or all of it. */
  lemma {:induction false} SplitHead(s: string, sep: char) returns (rest: string)
    ensures s == Split(s, sep)[0] + rest && (rest == "" || rest[0] == sep)
  {
    if s == "" || s[0] == sep {
      rest := s;
    } else {
      rest := SplitHead(s[1..], sep);
      assert s == [s[0]] + s[1..];
    }
  }

  /** strings.Contains. */
  predicate Contains(s: string, sub: string) {
    exists i | 0 <= i <= |s| :: OccursAt(s, sub, i)
  }

  predicate OccursAt(s: string, sub: string, i: int) {
    0 <= i <= |s| - |sub| && s[i..i + |sub|] == sub
  }

  lemma ContainsPart(before: string, sub: string, after: string)
    ensures Contains(before + sub + after, sub)
  {
    var s := before + sub + after;
    assert s[|before|..|before| + |sub|] == sub;
    assert OccursAt(s, sub, |before|);
  }

  /** The format "https://%s:%s" of every peer URL. */
  function PeerURL(ip: string, port: string): string {
    "https://" + ip + ":" + port
  }

  lemma PeerURLInjective(a: string, b: string, port: string)
    requires PeerURL(a, port) == PeerURL(b, port)
    ensures a == b
  {
    var u := PeerURL(a, port);
    var v := PeerURL(b, port);
    assert |u| == 8 + |a| + 1 + |port| && |v| == 8 + |b| + 1 + |port|;
    assert a == u[8..8 + |a|];
    assert b == v[8..8 + |b|];
  }

  function PeerURLs(ips: seq<string>, port: string): (urls: seq<string>)
    ensures |urls| == |ips|
    ensures forall i | 0 <= i < |ips| :: urls[i] == PeerURL(ips[i], port)
  {
    seq(|ips|, i requires 0 <= i < |ips| => PeerURL(ips[i], port))
  }

  lemma PeerURLsKeepDistinct(ips: seq<string>, port: string)
    ensures NoDup(PeerURLs(ips, port)) <==> NoDup(ips)
  {
    var urls := PeerURLs(ips, port);
    forall i, j | 0 <= i < j < |ips| ensures urls[i] == urls[j] <==> ips[i] == ips[j] {
      if urls[i] == urls[j] {
        PeerURLInjective(ips[i], ips[j], port);
      }
    }
  }
}
