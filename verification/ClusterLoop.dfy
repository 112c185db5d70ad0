/** The endless loop of one pod's process and the two functions that wait on the etcd it started. */
module ClusterLoop {
  import opened Base
  import opened Members
  import opened InitialCluster
  import opened Joining
  import opened Manager
  import C = Checker

  /** What ends a wait besides the checker: a signal to the process, or the end of the child. */
  datatype End = Signal | ChildExit

  /**
   * What a wait beside the checker selects first. `FromChecker` is a value or the closing of its result channel: the
   * checker's certificates, its events up to then, whether a SIGTERM and a kill of the child succeed, and what ends
   * the wait later if there is no split.
   */
  datatype Wait =
    | Ended(end: End)
    | FromChecker(certsLoad: bool, events: seq<C.Event>, term: bool, kill: bool, later: End)

  /** What one iteration meets. */
  datatype Iteration = Iteration(
    discovered: bool, anyReady: bool, anyNotReady: bool, client: bool,
    cluster: nat, members: seq<Member>,      // the cluster behind the client
    dead: set<string>, env: Env, newCluster: nat,
    end: End, wait: Wait,                    // what ends the wait after a join, and after a founding
    ended: set<nat>)                         // children left behind that have ended by now, by the iteration they are of

  /** An etcd process handed to a wait function; `returned` if that function returned instead of ending the process. */
  datatype Watch = Founded(returned: bool) | Joined

  datatype Status = Status(
    disk: Option<Data>, initial: Launch,
    strays: map<nat, Data>,                  // children that run and that nobody waits for, by iteration
    log: seq<Watch>, exited: bool)

  datatype Place = Place(pod: Pod, index: nat, clientPort: string) {
    function MyIPs(): set<string> { ToSet(pod.ips) }
  }

  // ---------------------------------------------------------------- one iteration on values

  /** The attempt of an iteration, if it makes one. */
  function Attempt(it: Iteration, index: nat): Option<Decision> {
    if !it.discovered then None
    else
      var d := Decide(it.anyReady, it.anyNotReady, index);
      if d == FoundNew || (d == JoinReady && it.client) then Some(d) else None
  }

  function PassOf(s: Status, it: Iteration, d: Decision, pod: Pod): Pass {
    if d == JoinReady then JoinPass(Site(it.cluster, it.members, [], s.disk, None, s.initial), pod, it.dead, it.env)
    else InitPass(Site(it.newCluster, [], [], s.disk, None, s.initial), pod, it.newCluster, it.env)
  }

  /** The checker puts a value on its channel or closes it. */
  ghost predicate Delivers(w: Wait, at: Place) {
    w.FromChecker? && w.certsLoad ==> C.FirstLoud(w.events, 0, at.MyIPs(), at.clientPort) < |w.events|
  }

  ghost predicate DetectsSplit(w: Wait, at: Place) {
    w.FromChecker? && w.certsLoad && C.Alarms(w.events, at.MyIPs(), at.clientPort)
  }

  /** A wait beside the checker returns after a detected split, unless the child can be neither terminated nor killed. */
  ghost predicate Returns(w: Wait, at: Place) {
    DetectsSplit(w, at) && (w.term || w.kill)
  }

  /** What follows a pass: a wait if etcd was started, else the next iteration, beside a child that the pass left. */
  ghost function AfterPass(s: Status, r: Pass, d: Decision, it: Iteration, n: nat, at: Place): Status {
    var t := s.(disk := r.site.disk, initial := r.site.initial);
    if r.outcome != Started then
      if r.site.child.Some? then t.(strays := t.strays[n := r.site.child.value]) else t
    else if d == JoinReady then t.(log := t.log + [Joined], exited := true)
    else t.(log := t.log + [Founded(Returns(it.wait, at))], exited := !Returns(it.wait, at))
  }

  ghost function After(s: Status, it: Iteration, n: nat, at: Place): Status {
    var now := s.(strays := s.strays - it.ended);
    if Attempt(it, at.index).None? then now
    else
      var d := Attempt(it, at.index).value;
      AfterPass(now, PassOf(now, it, d, at.pod), d, it, n, at)
  }

  /** The whole process over its iterations, until it exits. */
  ghost function RunOf(its: seq<Iteration>, disk: Option<Data>, at: Place): Status {
    if its == [] then Status(disk, Unset, map[], [], false)
    else
      var s := RunOf(its[..|its| - 1], disk, at);
      if s.exited then s else After(s, its[|its| - 1], |its| - 1, at)
  }

  lemma RunOneMore(init: seq<Iteration>, it: Iteration, disk: Option<Data>, at: Place)
    ensures var s := RunOf(init, disk, at);
      RunOf(init + [it], disk, at) == if s.exited then s else After(s, it, |init|, at)
  {
    hide After;
    assert (init + [it])[..|init|] == init;
  }

  /**
   * What an iteration does, by what it meets: a ready node and a client make it join, whatever else is seen; without a
   * ready node it founds exactly if no node is not ready either and the pod is pod 0; in all other cases it does
   * nothing but let time pass. A started etcd is waited for: a joined one until the process exits, a founding one until
   * the process exits or a detected split has ended it.
   */
  lemma IterationDecides(s: Status, it: Iteration, n: nat, at: Place)
    requires !s.exited
    ensures var now, pod, t := s.(strays := s.strays - it.ended), at.pod, After(s, it, n, at);
      if it.discovered && it.anyReady && it.client then
        var r := JoinPass(Site(it.cluster, it.members, [], s.disk, None, s.initial), pod, it.dead, it.env);
        if r.outcome == Started then
          t == Status(r.site.disk, r.site.initial, now.strays, s.log + [Joined], true)
        else
          && t.disk == r.site.disk && t.initial == r.site.initial && t.log == s.log && !t.exited
          && t.strays == if r.site.child.Some? then now.strays[n := r.site.child.value] else now.strays
      else if it.discovered && !it.anyReady && !it.anyNotReady && at.index == 0 then
        var r := InitPass(Site(it.newCluster, [], [], s.disk, None, s.initial), pod, it.newCluster, it.env);
        var w := it.wait;
        var back := w.FromChecker? && w.certsLoad && C.Alarms(w.events, ToSet(pod.ips), at.clientPort) && (w.term || w.kill);
        && t.disk == r.site.disk && t.initial == r.site.initial && t.strays == now.strays
        && t.log == s.log + (if r.outcome == Started then [Founded(back)] else [])
        && (t.exited <==> r.outcome == Started && !back)
      else t == now
  {
    hide JoinPass, FounderMember, C.Alarms;
  }

  // ---------------------------------------------------------------- the process

  /** The handle of a started etcd. */
  class Child {
    var alive: bool
    var signalled: bool

    constructor ()
      ensures alive && !signalled
    {
      alive, signalled := true, false;
    }
  }

  class Process {
    const at: Place
    const mgr: JoinManager
    const host: Host
    var strays: map<nat, Data>
    var log: seq<Watch>
    var exited: bool
    var count: nat

    ghost function Now(): Status
      reads this, host
    {
      Status(host.disk, host.initial, strays, log, exited)
    }

    ghost predicate Valid()
      reads this, host
    {
      mgr.pod == at.pod && (!exited ==> host.child == None)
    }

    constructor (at: Place, disk: Option<Data>)
      ensures Valid() && this.at == at && fresh(host) && count == 0 && Now() == Status(disk, Unset, map[], [], false)
    {
      this.at := at;
      mgr := new JoinManager(at.pod);
      host := new Host(disk);
      strays, log, exited, count := map[], [], false, 0;
    }

    /** waitExit: a signal kills the child, and its end is waited for otherwise; in both cases the process exits. */
    method WaitExit(child: Child, end: End)
      modifies this`log, this`exited, child
      ensures exited && log == old(log) + [Joined]
      ensures if end == Signal then child.signalled && child.alive == old(child.alive) else !child.alive
    {
      log := log + [Joined];
      Finish(child, end);
    }

    method Finish(child: Child, end: End)
      modifies this`exited, child
      ensures exited
      ensures if end == Signal then child.signalled && child.alive == old(child.alive) else !child.alive
    {
      match end {
        case Signal => child.signalled := true;
        case ChildExit => child.alive := false;
      }
      exited := true;
    }

    /**
     * waitExitWithBrainSplitCheck: it returns exactly after a detected split, when the child has been signalled and
     * has ended; otherwise the process exits.
     */
    method WaitExitWithBrainSplitCheck(child: Child, w: Wait)
      requires Delivers(w, at) && !exited
      modifies this`log, this`exited, child
      ensures !exited <==>
        && w.FromChecker? && w.certsLoad && C.Alarms(w.events, ToSet(at.pod.ips), at.clientPort)
        && (w.term || w.kill)
      ensures !exited ==> child.signalled && !child.alive
      ensures log == old(log) + [Founded(!exited)]
    {
      match w {
        case Ended(end) =>
          Finish(child, end);
        case FromChecker(certsLoad, events, term, kill, later) =>
          var sent, running := C.RunChecker(certsLoad, events, at.MyIPs(), at.clientPort);
          assert !running;
          if sent == [true] {
            if !term && !kill {
              exited := true;
            } else {
              child.signalled := true;
              child.alive := false;
            }
          } else {
            Finish(child, later);
          }
      }
      log := log + [Founded(!exited)];
    }

    /** A started child that no wait function got goes on running beside the next iterations. */
    method LeaveBehind(n: nat)
      modifies this`strays, host`child
      ensures host.child == None
      ensures strays == if old(host.child).Some? then old(strays)[n := old(host.child).value] else old(strays)
    {
      if host.child.Some? {
        strays := strays[n := host.child.value];
        host.child := None;
      }
    }

    method Join(it: Iteration)
      requires Valid() && !exited && count > 0
      modifies this, host
      ensures Valid() && count == old(count)
      ensures Now() == AfterPass(old(Now()), PassOf(old(Now()), it, JoinReady, at.pod), JoinReady, it, count - 1, at)
    {
      hide JoinPass;
      var client := new Cluster.At(it.cluster, it.members);
      var outcome := mgr.JoinExistingCluster(client, host, it.dead, it.env);
      if outcome == Started {
        var child := new Child();
        WaitExit(child, it.end);
      } else {
        LeaveBehind(count - 1);
      }
    }

    method Found(it: Iteration)
      requires Valid() && !exited && count > 0 && Delivers(it.wait, at)
      modifies this, host
      ensures Valid() && count == old(count)
      ensures Now() == AfterPass(old(Now()), PassOf(old(Now()), it, FoundNew, at.pod), FoundNew, it, count - 1, at)
    {
      hide Delivers;
      var outcome, cluster := mgr.InitializeNewCluster(host, it.newCluster, it.env);
      if outcome == Started {
        var child := new Child();
        WaitExitWithBrainSplitCheck(child, it.wait);
        if !exited {
          host.child := None;
        }
      }
    }

    method Iterate(it: Iteration)
      requires Valid() && !exited && Delivers(it.wait, at)
      modifies this, host
      ensures Valid() && count == old(count) + 1
      ensures Now() == After(old(Now()), it, old(count), at)
    {
      hide JoinPass, Returns, Delivers;
      count := count + 1;
      strays := strays - it.ended;
      if !it.discovered {
        return;
      }
      if it.anyReady {
        if !it.client {
          return;
        }
        Join(it);
      } else if it.anyNotReady {
      } else {
        if at.index != 0 {
          return;
        }
        Found(it);
      }
    }

    /** runClusterLoop, as far as the given iterations reach. */
    method RunClusterLoop(its: seq<Iteration>)
      requires Valid() && count == 0 && Now() == Status(host.disk, Unset, map[], [], false)
      requires forall it | it in its :: Delivers(it.wait, at)
      modifies this, host
      ensures Now() == RunOf(its, old(host.disk), at)
    {
      hide After, Delivers;
      for i := 0 to |its|
        invariant Valid() && Now() == RunOf(its[..i], old(host.disk), at) && (!exited ==> count == i)
      {
        assert its[..i + 1][..i] == its[..i];
        if exited {
          RunStaysExited(its, i, old(host.disk), at);
          return;
        }
        Iterate(its[i]);
      }
      assert its[..|its|] == its;
    }
  }

  lemma {:induction false} RunStaysExited(its: seq<Iteration>, i: nat, disk: Option<Data>, at: Place)
    requires i <= |its| && RunOf(its[..i], disk, at).exited
    ensures RunOf(its, disk, at) == RunOf(its[..i], disk, at)
  {
    hide After;
    if i < |its| {
      var init := its[..|its| - 1];
      assert init[..i] == its[..i];
      RunStaysExited(init, i, disk, at);
    } else {
      assert its[..i] == its;
    }
  }

  // ---------------------------------------------------------------- the shape of every run

  /** What one iteration does to the log: nothing, or it ends the process, or it lists a founding that returned. */
  ghost predicate Watched(s: Status, t: Status, at: Place) {
    || (t.log == s.log && t.exited == s.exited)
    || (t.log == s.log + [Joined] && t.exited)
    || (at.index == 0 && t.log == s.log + [Founded(!t.exited)])
  }

  lemma LastWatch(s: Status, it: Iteration, n: nat, at: Place)
    ensures Watched(s, After(s, it, n, at), at)
  {
    hide JoinPass, InitPass, Returns, PassOf;
  }

  ghost predicate Shape(s: Status, at: Place) {
    && (forall i | 0 <= i < |s.log| - 1 :: s.log[i] == Founded(true))
    && (s.exited <==> s.log != [] && s.log[|s.log| - 1] != Founded(true))
    && (at.index != 0 ==> forall i | 0 <= i < |s.log| :: s.log[i] == Joined)
  }

  lemma ShapeStays(s: Status, t: Status, at: Place)
    requires Shape(s, at) && !s.exited && Watched(s, t, at)
    ensures Shape(t, at)
  {
    assert forall i | 0 <= i < |s.log| :: s.log[i] == Founded(true);
  }

  /**
   * The processes handed to the wait functions are: any number of own clusters each ended by a detected split, then
   * at most one last process, founded or joined, after which the process itself exits. Only pod 0 founds.
   */
  lemma {:induction false} RunShape(its: seq<Iteration>, disk: Option<Data>, at: Place)
    ensures Shape(RunOf(its, disk, at), at)
  {
    if its != [] {
      hide RunOf, After, Shape, Watched;
      var n := |its| - 1;
      assert its == its[..n] + [its[n]];
      RunOneMore(its[..n], its[n], disk, at);
      RunShape(its[..n], disk, at);
      var s := RunOf(its[..n], disk, at);
      if !s.exited {
        LastWatch(s, its[n], n, at);
        ShapeStays(s, RunOf(its, disk, at), at);
      }
    }
  }

  /** A pod other than pod 0 hands over at most one process in its life. */
  lemma OthersWaitOnce(its: seq<Iteration>, disk: Option<Data>, at: Place)
    requires at.index != 0
    ensures |RunOf(its, disk, at).log| <= 1
  {
    RunShape(its, disk, at);
    var log := RunOf(its, disk, at).log;
    assert log == [] || log[0] == Joined;
  }

  // ---------------------------------------------------------------- children left behind

  ghost predicate LeavesChild(r: Pass, env: Env) {
    r.site.child.Some? <==> r.outcome == Started || (r.outcome == PromoteFailed && !env.sigterm)
  }

  lemma AddLeavesChild(s: Site, pod: Pod, voting: nat, env: Env)
    requires s.child.None?
    ensures LeavesChild(AddMemberAndStart(s, pod, voting, env), env)
  {
    hide AddReply, BuildClusterConfig, Promotes, FirstAccepted;
  }

  lemma WithDataLeavesChild(s: Site, id: nat, learner: bool, env: Env)
    requires s.child.None? && s.disk.Some?
    ensures LeavesChild(JoinWithData(s, id, learner, env), env)
  {
    hide Promotes, FirstAccepted;
  }

  /** The passes agree: from no child, a pass leaves one exactly when it started one or failed to end it after starting. */
  lemma PassLeavesChild(s: Site, pod: Pod, dead: set<string>, env: Env)
    requires s.child.None?
    ensures LeavesChild(JoinPass(s, pod, dead, env), env)
  {
    hide WithRole, ScanOf, AddMemberAndStart, JoinWithData;
    var scan := ScanOf(s.members, pod.Me(), dead);
    var purged := PurgeAll(s, WithRole(Doomed, s.members, pod.Me(), dead), env);
    AddLeavesChild(purged.(disk := None), pod, scan.voting, env);
    AddLeavesChild(RemoveMember(purged, scan.myID, env), pod, scan.voting, env);
    if s.disk.Some? {
      WithDataLeavesChild(purged, scan.myID, scan.myLearner, env);
    }
  }

  /** The child that a failed promotion leaves is the etcd of the member that the pass has just added. */
  lemma LeftBehindIsNew(s: Site, pod: Pod, dead: set<string>, env: Env)
    requires s.child.None? && JoinPass(s, pod, dead, env).outcome == PromoteFailed && !env.sigterm
    ensures JoinPass(s, pod, dead, env).site.child == Some(Data(s.cluster, env.newID))
  {
    hide WithRole, ScanOf, AddMemberAndStart;
    var scan := ScanOf(s.members, pod.Me(), dead);
    var purged := PurgeAll(s, WithRole(Doomed, s.members, pod.Me(), dead), env);
    NewChild(purged.(disk := None), pod, scan.voting, env);
    if s.disk.None? {
      NewChild(RemoveMember(purged, scan.myID, env), pod, scan.voting, env);
    }
  }

  lemma NewChild(s: Site, pod: Pod, voting: nat, env: Env)
    requires s.disk.None? && !env.sigterm
    ensures var r := AddMemberAndStart(s, pod, voting, env);
      r.outcome == PromoteFailed ==> r.site.child == Some(Data(s.cluster, env.newID))
  {
    hide AddReply, BuildClusterConfig, Promotes, FirstAccepted;
  }

  ghost predicate SameBesides(r: Pass, q: Pass, child: Option<Data>) {
    && q.outcome == r.outcome && q.site.(child := None) == r.site.(child := None)
    && (r.site.child.Some? ==> q.site.child == r.site.child)
    && (r.outcome != Started && r.outcome != PromoteFailed ==> q.site.child == child)
  }

  /** A pass does the same beside a child that is still running: nothing in it looks at the child. */
  lemma ChildDoesNotMatter(s: Site, child: Option<Data>, pod: Pod, dead: set<string>, env: Env)
    requires s.child.None?
    ensures SameBesides(JoinPass(s, pod, dead, env), JoinPass(s.(child := child), pod, dead, env), child)
  {
    hide WithRole, ScanOf, HandleMemberJoin, PurgeAll;
    var scan := ScanOf(s.members, pod.Me(), dead);
    var doomed := WithRole(Doomed, s.members, pod.Me(), dead);
    PurgeIgnoresChild(s, child, doomed, env);
    if env.list {
      HandlingIgnoresChild(PurgeAll(s, doomed, env), child, scan, pod, env);
      hide SameBesides;
    }
  }

  lemma HandlingIgnoresChild(purged: Site, child: Option<Data>, scan: Scan, pod: Pod, env: Env)
    requires purged.child.None?
    ensures SameBesides(HandleMemberJoin(purged, scan, pod, env), HandleMemberJoin(purged.(child := child), scan, pod, env), child)
  {
    hide AddMemberAndStart, JoinWithData, Remove;
    if scan.myID == 0 {
      AddIgnoresChild(purged.(disk := None), child, pod, scan.voting, env);
      hide SameBesides;
    } else if purged.disk.Some? {
      DataIgnoresChild(purged, child, scan.myID, scan.myLearner, env);
      hide SameBesides;
    } else {
      AddIgnoresChild(RemoveMember(purged, scan.myID, env), child, pod, scan.voting, env);
    }
  }

  lemma {:induction false} PurgeIgnoresChild(s: Site, child: Option<Data>, targets: seq<Member>, env: Env)
    ensures PurgeAll(s.(child := child), targets, env) == PurgeAll(s, targets, env).(child := child)
  {
    if targets != [] {
      PurgeIgnoresChild(s, child, targets[..|targets| - 1], env);
    }
  }

  lemma {:induction false} PromotionIgnoresChild(s: Site, child: Option<Data>, id: nat, env: Env, attempts: nat)
    ensures PromoteTimes(s.(child := child), id, env, attempts) == PromoteTimes(s, id, env, attempts).(child := child)
  {
    if attempts > 0 {
      PromotionIgnoresChild(s, child, id, env, attempts - 1);
    }
  }

  lemma AddIgnoresChild(s: Site, child: Option<Data>, pod: Pod, voting: nat, env: Env)
    requires s.child.None?
    ensures SameBesides(AddMemberAndStart(s, pod, voting, env), AddMemberAndStart(s.(child := child), pod, voting, env), child)
  {
    hide AddReply, BuildClusterConfig, Promotes, FirstAccepted, PromoteLearner;
    assert AddReply(s.(child := child), pod.URLs(), env) == AddReply(s, pod.URLs(), env) by {
      SameReply(s, child, pod.URLs(), env);
    }
  }

  lemma SameReply(s: Site, child: Option<Data>, urls: seq<string>, env: Env)
    ensures AddReply(s.(child := child), urls, env) == AddReply(s, urls, env)
  {
    hide Overlaps;
  }

  lemma DataIgnoresChild(s: Site, child: Option<Data>, id: nat, learner: bool, env: Env)
    requires s.child.None? && s.disk.Some?
    ensures SameBesides(JoinWithData(s, id, learner, env), JoinWithData(s.(child := child), id, learner, env), child)
  {
    hide Promotes, FirstAccepted, PromoteTimes;
    var k := FirstAccepted(env.promote, 1);
    PromotionIgnoresChild(s, child, id, env, if k <= MAX_PROMOTE_ATTEMPTS then k else MAX_PROMOTE_ATTEMPTS);
  }

  /** The iteration joins, starts a new member's etcd, fails to promote it, and the child outlives its SIGTERM. */
  ghost predicate LeavesNow(s: Status, it: Iteration, at: Place) {
    && !s.exited && Attempt(it, at.index) == Some(JoinReady) && !it.env.sigterm
    && PassOf(s, it, JoinReady, at.pod).outcome == PromoteFailed
  }

  ghost predicate LeavesBehind(its: seq<Iteration>, disk: Option<Data>, at: Place, j: nat) {
    j < |its| && LeavesNow(RunOf(its[..j], disk, at), its[j], at)
  }

  ghost predicate EndedSince(its: seq<Iteration>, disk: Option<Data>, at: Place, j: nat) {
    exists i: nat :: EndsIn(its, disk, at, j, i)
  }

  ghost predicate EndsIn(its: seq<Iteration>, disk: Option<Data>, at: Place, j: nat, i: nat) {
    j < i < |its| && !RunOf(its[..i], disk, at).exited && j in its[i].ended
  }

  lemma EndedOneMore(init: seq<Iteration>, it: Iteration, disk: Option<Data>, at: Place, j: nat)
    ensures EndedSince(init + [it], disk, at, j)
       <==> EndedSince(init, disk, at, j) || (j < |init| && !RunOf(init, disk, at).exited && j in it.ended)
    ensures LeavesBehind(init + [it], disk, at, j)
       <==> if j == |init| then LeavesNow(RunOf(init, disk, at), it, at) else LeavesBehind(init, disk, at, j)
  {
    var its := init + [it];
    assert its[..|init|] == init && forall i | 0 <= i < |init| :: its[..i] == init[..i];
    hide RunOf, PassOf, Attempt;
    if EndedSince(init, disk, at, j) {
      var i: nat :| EndsIn(init, disk, at, j, i);
      assert EndsIn(its, disk, at, j, i);
    }
    if EndedSince(its, disk, at, j) {
      var i: nat :| EndsIn(its, disk, at, j, i);
      assert i < |init| ==> EndsIn(init, disk, at, j, i);
    }
    if j < |init| && !RunOf(init, disk, at).exited && j in it.ended {
      assert EndsIn(its, disk, at, j, |init|);
    }
  }

  /**
   * Exactly which children run beside an iteration: those left behind by an earlier failed promotion of this process
   * whose child outlived its SIGTERM, and that have not ended since; each is the member which that iteration added.
   */
  lemma {:induction false} StraysAre(its: seq<Iteration>, disk: Option<Data>, at: Place, j: nat)
    ensures j in RunOf(its, disk, at).strays <==> LeavesBehind(its, disk, at, j) && !EndedSince(its, disk, at, j)
    ensures j in RunOf(its, disk, at).strays ==>
      j < |its| && RunOf(its, disk, at).strays[j] == Data(its[j].cluster, its[j].env.newID)
  {
    hide RunOf, LeavesNow;
    if its == [] {
      NoStraysAtFirst(disk, at, j);
    } else {
      var n := |its| - 1;
      var init, it := its[..n], its[n];
      assert its == init + [it] && (j < n ==> init[j] == its[j]);
      StraysAre(init, disk, at, j);
      OneMoreStray(init, it, disk, at, j);
    }
  }

  lemma NoStraysAtFirst(disk: Option<Data>, at: Place, j: nat)
    ensures RunOf([], disk, at).strays == map[] && !LeavesBehind([], disk, at, j)
  {
  }

  lemma OneMoreStray(init: seq<Iteration>, it: Iteration, disk: Option<Data>, at: Place, j: nat)
    ensures var its, s := init + [it], RunOf(init, disk, at);
      && (RunOf(its, disk, at).strays == if s.exited then s.strays
          else if LeavesNow(s, it, at) then (s.strays - it.ended)[|init| := Data(it.cluster, it.env.newID)]
          else s.strays - it.ended)
      && (LeavesBehind(its, disk, at, j) <==> if j == |init| then LeavesNow(s, it, at) else LeavesBehind(init, disk, at, j))
      && (EndedSince(its, disk, at, j) <==> EndedSince(init, disk, at, j) || (j < |init| && !s.exited && j in it.ended))
      && (LeavesBehind(init, disk, at, j) ==> j < |init|) && (s.exited ==> !LeavesNow(s, it, at))
  {
    hide RunOf, After, LeavesNow, LeavesBehind, EndedSince;
    RunOneMore(init, it, disk, at);
    EndedOneMore(init, it, disk, at, j);
    if !RunOf(init, disk, at).exited {
      LastStray(RunOf(init, disk, at), it, |init|, at);
    }
    BehindBefore(init, disk, at, j);
    ExitedLeavesNothing(RunOf(init, disk, at), it, at);
  }

  lemma ExitedLeavesNothing(s: Status, it: Iteration, at: Place)
    ensures s.exited ==> !LeavesNow(s, it, at)
  {
  }

  lemma BehindBefore(its: seq<Iteration>, disk: Option<Data>, at: Place, j: nat)
    ensures LeavesBehind(its, disk, at, j) ==> j < |its|
  {
  }

  lemma StraysAfterPass(s: Status, r: Pass, d: Decision, it: Iteration, n: nat, at: Place)
    ensures AfterPass(s, r, d, it, n, at).strays
         == if r.outcome != Started && r.site.child.Some? then s.strays[n := r.site.child.value] else s.strays
  {
    hide Returns;
  }

  lemma FoundingLeavesNoChild(s: Status, it: Iteration, pod: Pod)
    ensures var r := PassOf(s, it, FoundNew, pod); r.outcome != Started ==> r.site.child.None?
  {
    hide JoinPass;
  }

  lemma JoinLeavesChild(s: Status, it: Iteration, pod: Pod)
    ensures var r := PassOf(s, it, JoinReady, pod);
      if r.outcome == PromoteFailed && !it.env.sigterm then r.site.child == Some(Data(it.cluster, it.env.newID))
      else r.outcome != Started ==> r.site.child.None?
  {
    var site := Site(it.cluster, it.members, [], s.disk, None, s.initial);
    assert PassOf(s, it, JoinReady, pod) == JoinPass(site, pod, it.dead, it.env);
    hide JoinPass, PassOf;
    PassLeavesChild(site, pod, it.dead, it.env);
    if JoinPass(site, pod, it.dead, it.env).outcome == PromoteFailed && !it.env.sigterm {
      LeftBehindIsNew(site, pod, it.dead, it.env);
    }
  }

  lemma PassSeesNoStrays(s: Status, strays: map<nat, Data>, it: Iteration, d: Decision, pod: Pod)
    ensures PassOf(s.(strays := strays), it, d, pod) == PassOf(s, it, d, pod)
  {
    hide JoinPass, InitPass;
  }

  /** What one iteration does to the children left behind. */
  lemma LastStray(s: Status, it: Iteration, n: nat, at: Place)
    requires !s.exited
    ensures After(s, it, n, at).strays
         == if LeavesNow(s, it, at) then (s.strays - it.ended)[n := Data(it.cluster, it.env.newID)] else s.strays - it.ended
  {
    hide AfterPass, PassOf;
    var now := s.(strays := s.strays - it.ended);
    if Attempt(it, at.index).Some? {
      var d := Attempt(it, at.index).value;
      StraysAfterPass(now, PassOf(now, it, d, at.pod), d, it, n, at);
      PassSeesNoStrays(s, s.strays - it.ended, it, d, at.pod);
      if d == JoinReady {
        JoinLeavesChild(now, it, at.pod);
      } else {
        FoundingLeavesNoChild(now, it, at.pod);
      }
    }
  }
}
