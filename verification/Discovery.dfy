/** Endpoint discovery: concurrent probes of every node's addresses, collected over a channel and stored under a lock. */
module Discovery {
  import opened Base
  import opened Text

  /** The source's enumeration, in its order; the ranking is Healthy over NotReady over Unreachable. */
  datatype Health = HealthUnreachable | HealthHealthy | HealthNotReady

  datatype File = Missing | Unreadable | Content(text: string)

  /** An entry of the node directory. */
  datatype Entry = Entry(name: string, isDir: bool, isIP: bool, file: File)

  /** The entries that stand for a node: files named by an IP address. */
  function Nodes(dir: seq<Entry>): (nodes: seq<Entry>)
    ensures forall e :: e in nodes <==> e in dir && !e.isDir && e.isIP
  {
    if dir == [] then []
    else
      var init, last := dir[..|dir| - 1], dir[|dir| - 1];
      assert dir == init + [last];
      Nodes(init) + if !last.isDir && last.isIP then [last] else []
  }

  /** The addresses a node file gives; None when it cannot be read. */
  function ReadIPFile(e: Entry): (ips: Option<seq<string>>)
    ensures ips.Some? ==> ips.value != []
    ensures ips.None? <==> e.file.Unreadable?
  {
    match e.file
    case Missing => Some([e.name])
    case Unreadable => None
    case Content(text) => Some(Split(TrimSpace(text), ','))
  }

  /** What a node file says: without a file the node's own name, and else its text between white space, comma-separated. */
  ghost predicate FileSays(e: Entry, list: seq<string>) {
    match e.file
    case Missing => list == [e.name]
    case Unreadable => false
    case Content(text) => list != [] && (forall p | p in list :: ',' !in p) && TrimsTo(text, Join(list, ','))
  }

  lemma ReadIPFileIff(e: Entry, list: seq<string>)
    ensures ReadIPFile(e) == Some(list) <==> FileSays(e, list)
  {
    hide TrimSpace, TrimsTo, Split, Join;
    if e.file.Content? {
      JoinOfSplit(TrimSpace(e.file.text), ',');
      TrimSpaceIff(e.file.text, Join(list, ','));
      if list != [] && forall p | p in list :: ',' !in p {
        SplitOfJoin(list, ',');
      }
    }
  }

  // ---------------------------------------------------------------- ranking

  /** The best of the probes. */
  function Classify(results: seq<Health>): Health {
    if HealthHealthy in results then HealthHealthy
    else if HealthNotReady in results then HealthNotReady
    else HealthUnreachable
  }

  /** The collecting loop of checkEndpointHealth, over the values in the order in which they arrive. */
  method CollectBest(arrivals: seq<Health>) returns (best: Health)
    ensures best == Classify(arrivals)
  {
    best := HealthUnreachable;
    for i := 0 to |arrivals|
      invariant best == Classify(arrivals[..i]) && HealthHealthy !in arrivals[..i]
    {
      var h := arrivals[i];
      assert arrivals[..i + 1] == arrivals[..i] + [h];
      if h == HealthHealthy {
        assert arrivals[i] == HealthHealthy;
        return HealthHealthy;
      }
      if h == HealthNotReady {
        best := HealthNotReady;
      }
    }
    assert arrivals[..|arrivals|] == arrivals;
  }

  // ---------------------------------------------------------------- one node's check: probes, channel, collector

  datatype Status = Collecting(best: Health) | Returned(result: Health)

  /** `log` is the order in which the probes have sent; the channel holds what was sent and not yet taken. */
  datatype Check = Check(log: seq<nat>, taken: nat, status: Status)

  function Results(ips: seq<string>, probe: string -> Health): (r: seq<Health>)
    ensures |r| == |ips| && forall i | 0 <= i < |ips| :: r[i] == probe(ips[i])
  {
    seq(|ips|, i requires 0 <= i < |ips| => probe(ips[i]))
  }

  predicate Below(log: seq<nat>, n: nat) {
    forall i | 0 <= i < |log| :: log[i] < n
  }

  /** The first `k` values sent. */
  function Sent(results: seq<Health>, log: seq<nat>, k: nat): (r: seq<Health>)
    requires k <= |log| && Below(log, |results|)
    ensures |r| == k && forall i | 0 <= i < k :: r[i] == results[log[i]]
  {
    seq(k, i requires 0 <= i < k => results[log[i]])
  }

  ghost predicate CheckOK(results: seq<Health>, c: Check) {
    && NoDup(c.log) && Below(c.log, |results|)
    && c.taken <= |c.log|
    && match c.status
       case Collecting(best) =>
         best == Classify(Sent(results, c.log, c.taken)) && HealthHealthy !in Sent(results, c.log, c.taken)
       case Returned(result) => result == Classify(results)
  }

  /** No probe ever finds the channel full: its capacity is the number of probes, and each sends once. */
  lemma SenderNeverBlocks(results: seq<Health>, c: Check, i: nat)
    requires CheckOK(results, c) && i < |results| && i !in c.log
    ensures |c.log| - c.taken < |results|
  {
    SizeOfToSet(c.log + [i]);
    Indices(c.log + [i], |results|);
  }

  lemma Indices(log: seq<nat>, n: nat)
    requires NoDup(log) && Below(log, n)
    ensures |log| <= n
    ensures |log| == n ==> forall j: nat | j < n :: j in log
  {
    var all := Range(n);
    SizeOfToSet(log);
    assert ToSet(log) <= all;
    SubsetSize(ToSet(log), all);
    if |log| == n {
      SubsetOfSameSize(ToSet(log), all);
      forall j: nat | j < n ensures j in log {
        assert j in all;
      }
    }
  }

  function Range(n: nat): (r: set<nat>)
    ensures |r| == n && forall j: nat :: j in r <==> j < n
  {
    if n == 0 then {} else Range(n - 1) + {n - 1}
  }

  /** Once every probe has sent, what was sent is a rearrangement of all results: the collector misses nothing. */
  lemma AllSentMeansAll(results: seq<Health>, log: seq<nat>, h: Health)
    requires NoDup(log) && Below(log, |results|) && |log| == |results|
    ensures h in Sent(results, log, |log|) <==> h in results
  {
    Indices(log, |results|);
    if h in results {
      var j: nat :| j < |results| && results[j] == h;
      assert j in log;
      var k :| 0 <= k < |log| && log[k] == j;
      assert Sent(results, log, |log|)[k] == h;
    }
  }

  // ---------------------------------------------------------------- all nodes

  datatype Info = Info(ready: map<string, seq<string>>, notReady: set<string>, dead: set<string>)

  datatype Phase = Reading | Checking | Done

  datatype Node = Node(phase: Phase, check: Check)

  datatype State = State(nodes: seq<Node>, info: Info)

  datatype Move =
    | Read(n: nat)            // node n's goroutine reads the file
    | Send(n: nat, i: nat)    // the probe of node n's address i delivers its result
    | Receive(n: nat)         // the collector takes a value from the channel
    | EndOfChannel(n: nat)    // every probe is done, the channel is closed and empty
    | Store(n: nat)           // the result is stored under the lock

  const NEW_CHECK := Check([], 0, Collecting(HealthUnreachable))

  function IPsOf(e: Entry): seq<string> {
    if ReadIPFile(e).Some? then ReadIPFile(e).value else []
  }

  function ResultsOf(e: Entry, probe: string -> Health): seq<Health> {
    Results(IPsOf(e), probe)
  }

  predicate Possible(entries: seq<Entry>, probe: string -> Health, s: State, m: Move) {
    && |s.nodes| == |entries| && m.n < |entries|
    && var node, results := s.nodes[m.n], ResultsOf(entries[m.n], probe);
       var c := node.check;
       match m
       case Read(_) => node.phase == Reading
       case Send(_, i) => node.phase != Reading && i < |results| && i !in c.log
       case Receive(_) =>
         node.phase == Checking && c.status.Collecting? && c.taken < |c.log| && c.log[c.taken] < |results|
       case EndOfChannel(_) =>
         node.phase == Checking && c.status.Collecting? && |c.log| == |results| && c.taken == |c.log|
       case Store(_) => node.phase == Checking && c.status.Returned?
  }

  function Stored(info: Info, e: Entry, h: Health): Info {
    match h
    case HealthHealthy => info.(ready := info.ready[e.name := IPsOf(e)])
    case HealthNotReady => info.(notReady := info.notReady + {e.name})
    case HealthUnreachable => info
  }

  function Taken(c: Check, h: Health): Check {
    Check(c.log, c.taken + 1,
      if h == HealthHealthy then Returned(HealthHealthy)
      else if h == HealthNotReady then Collecting(HealthNotReady)
      else c.status)
  }

  function Next(entries: seq<Entry>, probe: string -> Health, s: State, m: Move): State
    requires Possible(entries, probe, s, m)
  {
    var e, node, n := entries[m.n], s.nodes[m.n], m.n;
    var c := node.check;
    match m
    case Read(_) =>
      if ReadIPFile(e).None? then
        State(s.nodes[n := node.(phase := Done)], s.info.(dead := s.info.dead + {e.name}))
      else s.(nodes := s.nodes[n := node.(phase := Checking)])
    case Send(_, i) => s.(nodes := s.nodes[n := node.(check := c.(log := c.log + [i]))])
    case Receive(_) =>
      s.(nodes := s.nodes[n := node.(check := Taken(c, ResultsOf(e, probe)[c.log[c.taken]]))])
    case EndOfChannel(_) => s.(nodes := s.nodes[n := node.(check := c.(status := Returned(c.status.best)))])
    case Store(_) => State(s.nodes[n := node.(phase := Done)], Stored(s.info, e, c.status.result))
  }

  ghost predicate Initial(entries: seq<Entry>, s: State) {
    s == State(seq(|entries|, i => Node(Reading, NEW_CHECK)), Info(map[], {}, {}))
  }

  // ---------------------------------------------------------------- what the maps hold

  ghost predicate Distinct(entries: seq<Entry>) {
    forall i, j | 0 <= i < j < |entries| :: entries[i].name != entries[j].name
  }

  predicate Has(info: Info, name: string) {
    name in info.ready || name in info.notReady || name in info.dead
  }

  /** What the info says of node e once its goroutine is done. */
  ghost predicate Verdict(e: Entry, probe: string -> Health, info: Info) {
    var h := Classify(ResultsOf(e, probe));
    && (e.name in info.dead <==> ReadIPFile(e).None?)
    && (e.name in info.ready <==> ReadIPFile(e).Some? && h == HealthHealthy)
    && (e.name in info.ready ==> info.ready[e.name] == IPsOf(e))
    && (e.name in info.notReady <==> ReadIPFile(e).Some? && h == HealthNotReady)
  }

  ghost predicate NodeOK(e: Entry, probe: string -> Health, node: Node, info: Info) {
    && CheckOK(ResultsOf(e, probe), node.check)
    && match node.phase
       case Reading => !Has(info, e.name)
       case Checking => ReadIPFile(e).Some? && !Has(info, e.name)
       case Done => Verdict(e, probe, info)
  }

  ghost predicate Inv(entries: seq<Entry>, probe: string -> Health, s: State) {
    && |s.nodes| == |entries| && Distinct(entries)
    && (forall k | 0 <= k < |entries| :: NodeOK(entries[k], probe, s.nodes[k], s.info))
    && (forall name | Has(s.info, name) :: exists k :: 0 <= k < |entries| && entries[k].name == name)
  }

  // ---------------------------------------------------------------- every interleaving

  lemma InitialInv(entries: seq<Entry>, probe: string -> Health, s: State)
    requires Distinct(entries) && Initial(entries, s)
    ensures Inv(entries, probe, s)
  {
    assert forall r: seq<Health> :: Sent(r, [], 0) == [];
  }

  lemma SendKeeps(results: seq<Health>, c: Check, i: nat)
    requires CheckOK(results, c) && i < |results| && i !in c.log
    ensures CheckOK(results, c.(log := c.log + [i]))
  {
    assert Sent(results, c.log + [i], c.taken) == Sent(results, c.log, c.taken);
  }

  lemma ReceiveKeeps(results: seq<Health>, c: Check)
    requires CheckOK(results, c) && c.status.Collecting? && c.taken < |c.log|
    ensures CheckOK(results, Taken(c, results[c.log[c.taken]]))
  {
    var h := results[c.log[c.taken]];
    assert Sent(results, c.log, c.taken + 1) == Sent(results, c.log, c.taken) + [h];
    assert h in results;
  }

  lemma EndKeeps(results: seq<Health>, c: Check)
    requires CheckOK(results, c) && c.status.Collecting? && c.taken == |c.log| == |results|
    ensures CheckOK(results, c.(status := Returned(c.status.best)))
  {
    AllSentMeansAll(results, c.log, HealthHealthy);
    AllSentMeansAll(results, c.log, HealthNotReady);
  }

  /** A step of one node leaves the stored verdicts of the others alone. */
  lemma OthersUntouched(e: Entry, f: Entry, probe: string -> Health, node: Node, info: Info, info': Info)
    requires NodeOK(e, probe, node, info) && f.name != e.name
    requires info' == info || info' == info.(dead := info.dead + {f.name}) || exists h :: info' == Stored(info, f, h)
    ensures NodeOK(e, probe, node, info')
  {
    hide Classify, ResultsOf, CheckOK;
  }

  lemma StepKeeps(entries: seq<Entry>, probe: string -> Health, s: State, m: Move)
    requires Inv(entries, probe, s) && Possible(entries, probe, s, m)
    ensures Inv(entries, probe, Next(entries, probe, s, m))
  {
    var s' := Next(entries, probe, s, m);
    var e, node := entries[m.n], s.nodes[m.n];
    assert NodeOK(e, probe, node, s.info);
    OwnNodeKeeps(entries, probe, s, m);
    hide NodeOK, CheckOK, ResultsOf, Possible;
    forall k | 0 <= k < |entries| ensures NodeOK(entries[k], probe, s'.nodes[k], s'.info) {
      if k != m.n {
        OthersUntouched(entries[k], e, probe, s.nodes[k], s.info, s'.info);
      }
    }
    forall name | Has(s'.info, name) ensures exists k :: 0 <= k < |entries| && entries[k].name == name {
      assert Has(s.info, name) || name == e.name;
    }
  }

  lemma OwnNodeKeeps(entries: seq<Entry>, probe: string -> Health, s: State, m: Move)
    requires Inv(entries, probe, s) && Possible(entries, probe, s, m)
    ensures var s' := Next(entries, probe, s, m);
      && NodeOK(entries[m.n], probe, s'.nodes[m.n], s'.info)
      && (s'.info == s.info || s'.info == s.info.(dead := s.info.dead + {entries[m.n].name})
          || exists h :: s'.info == Stored(s.info, entries[m.n], h))
  {
    var e, c := entries[m.n], s.nodes[m.n].check;
    var results := ResultsOf(e, probe);
    assert NodeOK(e, probe, s.nodes[m.n], s.info);
    hide Inv, ResultsOf, Classify, Sent, NoDup, Below;
    match m
    case Read(_) =>
    case Send(_, i) => SendKeeps(results, c, i);
    case Receive(_) => ReceiveKeeps(results, c);
    case EndOfChannel(_) => EndKeeps(results, c);
    case Store(_) =>
  }

  ghost predicate IsRun(entries: seq<Entry>, probe: string -> Health, states: seq<State>, moves: seq<Move>) {
    && |states| == |moves| + 1 && Initial(entries, states[0])
    && forall k | 0 <= k < |moves| :: Possible(entries, probe, states[k], moves[k])
                                  && states[k + 1] == Next(entries, probe, states[k], moves[k])
  }

  lemma {:induction false} RunInv(entries: seq<Entry>, probe: string -> Health, states: seq<State>, moves: seq<Move>,
      k: nat)
    requires Distinct(entries) && IsRun(entries, probe, states, moves) && k < |states|
    ensures Inv(entries, probe, states[k])
  {
    if k == 0 {
      InitialInv(entries, probe, states[0]);
    } else {
      RunInv(entries, probe, states, moves, k - 1);
      assert Possible(entries, probe, states[k - 1], moves[k - 1]);
      StepKeeps(entries, probe, states[k - 1], moves[k - 1]);
    }
  }

  /**
   * However the goroutines are scheduled and in whatever order results arrive, once all are done every node is
   * stored by the best of its probes alone: ready, not ready, unreachable (stored nowhere) or unreadable. At every
   * moment the three maps are disjoint, and no probe that has yet to send can find its channel full.
   */
  lemma DiscoveryIsScheduleIndependent(entries: seq<Entry>, probe: string -> Health, states: seq<State>,
      moves: seq<Move>, k: nat)
    requires Distinct(entries) && IsRun(entries, probe, states, moves) && k < |states|
    ensures |states[k].nodes| == |entries|
    ensures forall n | 0 <= n < |entries| && states[k].nodes[n].phase == Done ::
      Verdict(entries[n], probe, states[k].info)
    ensures var info := states[k].info; info.ready.Keys !! info.notReady !! info.dead
    ensures forall name | Has(states[k].info, name) :: exists n :: 0 <= n < |entries| && entries[n].name == name
    ensures forall n, i: nat | 0 <= n < |entries| && i < |IPsOf(entries[n])| && i !in states[k].nodes[n].check.log ::
      |states[k].nodes[n].check.log| - states[k].nodes[n].check.taken < |IPsOf(entries[n])|
  {
    RunInv(entries, probe, states, moves, k);
    var s := states[k];
    forall n | 0 <= n < |entries| ensures NodeOK(entries[n], probe, s.nodes[n], s.info) {
    }
    forall n, i: nat | 0 <= n < |entries| && i < |IPsOf(entries[n])| && i !in s.nodes[n].check.log
      ensures |s.nodes[n].check.log| - s.nodes[n].check.taken < |IPsOf(entries[n])|
    {
      SenderNeverBlocks(ResultsOf(entries[n], probe), s.nodes[n].check, i);
    }
    hide CheckOK, Classify, IsRun;
    forall name | Has(s.info, name)
      ensures !(name in s.info.ready && name in s.info.notReady)
      ensures !(name in s.info.ready && name in s.info.dead)
      ensures !(name in s.info.notReady && name in s.info.dead)
    {
      var n :| 0 <= n < |entries| && entries[n].name == name;
      assert NodeOK(entries[n], probe, s.nodes[n], s.info);
    }
  }

  /** Two complete runs over the same files and probe results find the same, whatever their schedules. */
  lemma CompleteRunsAgree(entries: seq<Entry>, probe: string -> Health, s: State, t: State)
    requires Inv(entries, probe, s) && Inv(entries, probe, t)
    requires forall n | 0 <= n < |entries| :: s.nodes[n].phase == Done && t.nodes[n].phase == Done
    ensures s.info == t.info
  {
    hide CheckOK, Classify, ResultsOf;
    forall name
      ensures name in s.info.ready <==> name in t.info.ready
      ensures name in s.info.ready ==> s.info.ready[name] == t.info.ready[name]
      ensures name in s.info.notReady <==> name in t.info.notReady
      ensures name in s.info.dead <==> name in t.info.dead
    {
      if Has(s.info, name) || Has(t.info, name) {
        var n :| 0 <= n < |entries| && entries[n].name == name;
        assert NodeOK(entries[n], probe, s.nodes[n], s.info) && NodeOK(entries[n], probe, t.nodes[n], t.info);
      }
    }
    assert s.info.ready == t.info.ready && s.info.notReady == t.info.notReady && s.info.dead == t.info.dead;
  }

  // ---------------------------------------------------------------- what a discovery finds

  lemma {:induction false} NodesKeepDistinct(dir: seq<Entry>)
    requires Distinct(dir)
    ensures Distinct(Nodes(dir))
  {
    if dir != [] {
      var init, last := dir[..|dir| - 1], dir[|dir| - 1];
      NodesKeepDistinct(init);
      forall e | e in Nodes(init) ensures e.name != last.name {
        var i :| 0 <= i < |init| && init[i] == e;
        assert dir[i].name != last.name;
      }
    }
  }

  /** Some address of the list answers its probe in this way. */
  ghost predicate SomeAnswer(list: seq<string>, probe: string -> Health, h: Health) {
    exists ip :: ip in list && probe(ip) == h
  }

  /** Node e is ready with this list, not ready, unreadable, or not stored. */
  ghost predicate FoundAsItIs(e: Entry, probe: string -> Health, info: Info) {
    && (e.name in info.dead <==> e.file.Unreadable?)
    && (forall list :: e.name in info.ready && info.ready[e.name] == list
          <==> FileSays(e, list) && SomeAnswer(list, probe, HealthHealthy))
    && (e.name in info.notReady <==> exists list ::
          (FileSays(e, list) && SomeAnswer(list, probe, HealthNotReady) && !SomeAnswer(list, probe, HealthHealthy)))
  }

  lemma ResultsAnswer(list: seq<string>, probe: string -> Health, h: Health)
    ensures h in Results(list, probe) <==> SomeAnswer(list, probe, h)
  {
    var r := Results(list, probe);
    if h in r {
      var i :| 0 <= i < |r| && r[i] == h;
      assert list[i] in list;
    }
    if ip :| ip in list && probe(ip) == h {
      var i :| 0 <= i < |list| && list[i] == ip;
      assert r[i] == h;
    }
  }

  lemma VerdictIs(e: Entry, probe: string -> Health, info: Info)
    requires Verdict(e, probe, info)
    ensures FoundAsItIs(e, probe, info)
  {
    forall list ensures ReadIPFile(e) == Some(list) <==> FileSays(e, list) {
      ReadIPFileIff(e, list);
    }
    ResultsAnswer(IPsOf(e), probe, HealthHealthy);
    ResultsAnswer(IPsOf(e), probe, HealthNotReady);
    hide FileSays, SomeAnswer, Results;
    hide ReadIPFile;
    if ReadIPFile(e).Some? {
      assert FileSays(e, IPsOf(e));
    }
  }

  /**
   * Whatever the schedule, a finished discovery stores exactly the files of the directory that are named by an IP
   * address: a node is ready, with the addresses of its file, exactly if one of them answers as healthy; not ready
   * exactly if none does and one answers as not ready; and dead exactly if its file cannot be read.
   */
  lemma DiscoveryFinds(dir: seq<Entry>, probe: string -> Health, states: seq<State>, moves: seq<Move>, k: nat)
    requires Distinct(dir) && IsRun(Nodes(dir), probe, states, moves) && k < |states|
    requires forall node | node in states[k].nodes :: node.phase == Done
    ensures forall e | e in dir && !e.isDir && e.isIP :: FoundAsItIs(e, probe, states[k].info)
    ensures forall name | Has(states[k].info, name) :: exists e :: e in dir && !e.isDir && e.isIP && e.name == name
  {
    NodesKeepDistinct(dir);
    hide IsRun, Distinct, FoundAsItIs, Verdict;
    DiscoveryIsScheduleIndependent(Nodes(dir), probe, states, moves, k);
    forall e | e in dir && !e.isDir && e.isIP ensures FoundAsItIs(e, probe, states[k].info) {
      var n :| 0 <= n < |Nodes(dir)| && Nodes(dir)[n] == e;
      assert states[k].nodes[n] in states[k].nodes;
      VerdictIs(e, probe, states[k].info);
    }
    forall name | Has(states[k].info, name) ensures exists e :: e in dir && !e.isDir && e.isIP && e.name == name {
      var n :| 0 <= n < |Nodes(dir)| && Nodes(dir)[n].name == name;
      assert Nodes(dir)[n] in Nodes(dir);
    }
  }

  // ---------------------------------------------------------------- no deadlock

  lemma SomeYetToSend(log: seq<nat>, n: nat) returns (i: nat)
    requires NoDup(log) && Below(log, n) && |log| < n
    ensures i < n && i !in log
  {
    SizeOfToSet(log);
    var missing := Range(n) - ToSet(log);
    assert missing != {} by {
      if Range(n) <= ToSet(log) {
        SubsetSize(Range(n), ToSet(log));
      }
    }
    i :| i in missing;
  }

  /** Until every node is done some goroutine can go on: the WaitGroup is always waited out. */
  lemma NeverStuck(entries: seq<Entry>, probe: string -> Health, s: State, n: nat) returns (m: Move)
    requires Inv(entries, probe, s) && n < |entries| && s.nodes[n].phase != Done
    ensures Possible(entries, probe, s, m)
  {
    var node, results := s.nodes[n], ResultsOf(entries[n], probe);
    var c := node.check;
    assert NodeOK(entries[n], probe, node, s.info);
    hide Inv, ResultsOf, Verdict, Classify, Sent, Has, NodeOK;
    if node.phase == Reading {
      m := Read(n);
    } else if c.status.Returned? {
      m := Store(n);
    } else if c.taken < |c.log| {
      m := Receive(n);
    } else if |c.log| < |results| {
      var i := SomeYetToSend(c.log, |results|);
      m := Send(n, i);
    } else {
      Indices(c.log, |results|);
      m := EndOfChannel(n);
    }
  }

  /** How much is left to do for one node: its file, its values to send and to take, its result, its storing. */
  function Left(e: Entry, probe: string -> Health, node: Node): int {
    var total := |ResultsOf(e, probe)|;
    2 * total - |node.check.log| - node.check.taken
    + (match node.phase case Reading => 3 case Checking => if node.check.status.Returned? then 1 else 2 case Done => 0)
  }

  /** Every step leaves less to do for its node and the others as they are. */
  lemma EveryMoveCounts(entries: seq<Entry>, probe: string -> Health, s: State, m: Move)
    requires Inv(entries, probe, s) && Possible(entries, probe, s, m)
    ensures var s' := Next(entries, probe, s, m);
      && 0 <= Left(entries[m.n], probe, s'.nodes[m.n]) < Left(entries[m.n], probe, s.nodes[m.n])
      && |s'.nodes| == |s.nodes| && forall k | 0 <= k < |s.nodes| && k != m.n :: s'.nodes[k] == s.nodes[k]
  {
    StepKeeps(entries, probe, s, m);
    var s' := Next(entries, probe, s, m);
    assert NodeOK(entries[m.n], probe, s.nodes[m.n], s.info) && NodeOK(entries[m.n], probe, s'.nodes[m.n], s'.info);
    hide Inv, ResultsOf, Verdict, Classify, Has;
    Indices(s'.nodes[m.n].check.log, |ResultsOf(entries[m.n], probe)|);
  }

  function LeftOver(entries: seq<Entry>, probe: string -> Health, nodes: seq<Node>): int
    requires |entries| == |nodes|
  {
    if nodes == [] then 0
    else LeftOver(entries[1..], probe, nodes[1..]) + Left(entries[0], probe, nodes[0])
  }

  lemma {:induction false} LessIsLeft(entries: seq<Entry>, probe: string -> Health, a: seq<Node>, b: seq<Node>, n: nat)
    requires |a| == |b| == |entries| && n < |a| && Left(entries[n], probe, b[n]) < Left(entries[n], probe, a[n])
    requires forall k | 0 <= k < |a| && k != n :: b[k] == a[k]
    ensures LeftOver(entries, probe, b) < LeftOver(entries, probe, a)
  {
    hide Left;
    if n > 0 {
      LessIsLeft(entries[1..], probe, a[1..], b[1..], n - 1);
    } else {
      assert a[1..] == b[1..];
    }
  }

  /** All that can ever be done: for each node three steps and two for each of its addresses. */
  function Most(entries: seq<Entry>): nat {
    if entries == [] then 0 else Most(entries[1..]) + 2 * |IPsOf(entries[0])| + 3
  }

  lemma {:induction false} AtFirst(entries: seq<Entry>, probe: string -> Health)
    ensures LeftOver(entries, probe, seq(|entries|, i => Node(Reading, NEW_CHECK))) == Most(entries)
  {
    if entries != [] {
      AtFirst(entries[1..], probe);
      assert seq(|entries|, i => Node(Reading, NEW_CHECK))[1..] == seq(|entries[1..]|, i => Node(Reading, NEW_CHECK));
      hide IPsOf;
    }
  }

  lemma {:induction false} NeverNegative(entries: seq<Entry>, probe: string -> Health, s: State, from: nat)
    requires Inv(entries, probe, s) && from <= |entries|
    ensures LeftOver(entries[from..], probe, s.nodes[from..]) >= 0
    decreases |entries| - from
  {
    if from < |entries| {
      NeverNegative(entries, probe, s, from + 1);
      assert entries[from..][1..] == entries[from + 1..] && s.nodes[from..][1..] == s.nodes[from + 1..];
      assert NodeOK(entries[from], probe, s.nodes[from], s.info);
      hide Inv, ResultsOf, Verdict, Classify, Has;
      Indices(s.nodes[from].check.log, |ResultsOf(entries[from], probe)|);
    }
  }

  lemma OneStepIsSpent(entries: seq<Entry>, probe: string -> Health, s: State, m: Move)
    requires Inv(entries, probe, s) && Possible(entries, probe, s, m)
    ensures var s' := Next(entries, probe, s, m);
      && |s'.nodes| == |s.nodes| == |entries|
      && LeftOver(entries, probe, s'.nodes) < LeftOver(entries, probe, s.nodes)
  {
    EveryMoveCounts(entries, probe, s, m);
    var s' := Next(entries, probe, s, m);
    hide Inv, Next, Left, LeftOver;
    LessIsLeft(entries, probe, s.nodes, s'.nodes, m.n);
  }

  lemma {:induction false} StepsAreSpent(entries: seq<Entry>, probe: string -> Health, states: seq<State>,
      moves: seq<Move>, k: nat)
    requires Distinct(entries) && IsRun(entries, probe, states, moves) && k < |states|
    ensures |states[k].nodes| == |entries| && k + LeftOver(entries, probe, states[k].nodes) <= Most(entries)
  {
    hide Inv, Possible, Next, LeftOver, Most, NEW_CHECK, Distinct;
    if k == 0 {
      AtFirst(entries, probe);
    } else {
      assert Possible(entries, probe, states[k - 1], moves[k - 1]);
      StepsAreSpent(entries, probe, states, moves, k - 1);
      RunInv(entries, probe, states, moves, k - 1);
      OneStepIsSpent(entries, probe, states[k - 1], moves[k - 1]);
    }
  }

  /** A discovery can stop exactly when every node is done and every probe has sent its result. */
  lemma StopsIff(entries: seq<Entry>, probe: string -> Health, s: State)
    requires Inv(entries, probe, s)
    ensures (forall m :: !Possible(entries, probe, s, m)) <==>
      forall n | 0 <= n < |entries| :: s.nodes[n].phase == Done && |s.nodes[n].check.log| == |IPsOf(entries[n])|
  {
    if forall n | 0 <= n < |entries| :: s.nodes[n].phase == Done && |s.nodes[n].check.log| == |IPsOf(entries[n])| {
      forall m ensures !Possible(entries, probe, s, m) {
        if m.n < |entries| {
          DoneIsOver(entries, probe, s, m);
        }
      }
    } else {
      var n: nat :| n < |entries| && !(s.nodes[n].phase == Done && |s.nodes[n].check.log| == |IPsOf(entries[n])|);
      hide Possible;
      if s.nodes[n].phase != Done {
        var m := NeverStuck(entries, probe, s, n);
      } else {
        var m := LateSend(entries, probe, s, n);
      }
    }
  }

  lemma DoneIsOver(entries: seq<Entry>, probe: string -> Health, s: State, m: Move)
    requires Inv(entries, probe, s) && m.n < |entries|
    requires s.nodes[m.n].phase == Done && |s.nodes[m.n].check.log| == |IPsOf(entries[m.n])|
    ensures !Possible(entries, probe, s, m)
  {
    assert NodeOK(entries[m.n], probe, s.nodes[m.n], s.info);
    hide Inv, IPsOf, Verdict;
    Indices(s.nodes[m.n].check.log, |IPsOf(entries[m.n])|);
  }

  lemma LateSend(entries: seq<Entry>, probe: string -> Health, s: State, n: nat) returns (m: Move)
    requires Inv(entries, probe, s) && n < |entries|
    requires s.nodes[n].phase == Done && |s.nodes[n].check.log| != |IPsOf(entries[n])|
    ensures Possible(entries, probe, s, m)
  {
    assert NodeOK(entries[n], probe, s.nodes[n], s.info);
    hide Inv, IPsOf, Verdict;
    Indices(s.nodes[n].check.log, |IPsOf(entries[n])|);
    var i := SomeYetToSend(s.nodes[n].check.log, |IPsOf(entries[n])|);
    m := Send(n, i);
  }

  /** Discovery ends: no schedule takes more steps than that, and where it can go no further every node is done. */
  lemma DiscoveryEnds(entries: seq<Entry>, probe: string -> Health, states: seq<State>, moves: seq<Move>)
    requires Distinct(entries) && IsRun(entries, probe, states, moves)
    ensures |moves| <= Most(entries)
    ensures (forall m :: !Possible(entries, probe, states[|moves|], m)) ==>
      forall node | node in states[|moves|].nodes :: node.phase == Done
  {
    hide Inv, Possible, LeftOver, Most, Initial;
    var n := |moves|;
    StepsAreSpent(entries, probe, states, moves, n);
    RunInv(entries, probe, states, moves, n);
    NeverNegative(entries, probe, states[n], 0);
    assert entries[0..] == entries && states[n].nodes[0..] == states[n].nodes;
    if k: nat :| k < |entries| && states[n].nodes[k].phase != Done {
      var m := NeverStuck(entries, probe, states[n], k);
    }
  }
}
