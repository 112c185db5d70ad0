/** The checker in the world of all pods: when it can raise an alarm, and when it must. */
module Detection {
  import opened Members
  import opened JoinFacts
  import opened Bootstrap
  import opened OneCluster
  import C = Checker

  function IDsOf(members: seq<Member>): seq<nat> {
    seq(|members|, i requires 0 <= i < |members| => members[i].id)
  }

  /** Every answer to the checker of pod p comes from a running etcd, with its cluster's ID and member list. */
  ghost predicate ViewOfWorld(w: World, p: nat, view: C.View, myIPs: set<string>, port: string)
    requires p < |w.children| && w.children[p].Some?
  {
    && view.localCluster == w.children[p].value.cluster && view.localMember == w.children[p].value.member
    && forall e | e in C.Compared(view, myIPs, port) && view.answer(e).Some? ::
         exists q :: 0 <= q < |w.children| && AnsweredBy(w, q, view.answer(e).value)
  }

  ghost predicate AnsweredBy(w: World, q: nat, a: C.Answer) {
    && q < |w.children| && w.children[q].Some? && w.children[q].value.cluster in w.clusters
    && a == C.Answer(w.children[q].value.cluster, IDsOf(w.clusters[w.children[q].value.cluster]))
  }

  /** With faithful discovery the checker is never wrong: an alarm means that the pod's own member was removed. */
  lemma AlarmMeansEvicted(cfg: Config, w: World, p: nat, view: C.View, myIPs: set<string>, port: string)
    requires Inv(cfg, w) && p < |cfg| && w.children[p].Some?
    requires ViewOfWorld(w, p, view, myIPs, port) && C.SeesSplit(view, myIPs, port)
    ensures forall m | m in w.clusters[w.children[p].value.cluster] :: m.id != w.children[p].value.member
  {
    hide ListOK, DiskOK, NoStaleData;
    var d := w.children[p].value;
    var e :| e in C.Compared(view, myIPs, port) && view.answer(e).Some?
          && C.Offends(view.answer(e).value, d.cluster, d.member);
    var q :| 0 <= q < |w.children| && AnsweredBy(w, q, view.answer(e).value);
    assert w.children[q].value.cluster == d.cluster;
    var members := w.clusters[d.cluster];
    forall m | m in members ensures m.id != d.member {
      var i :| 0 <= i < |members| && members[i] == m;
      assert IDsOf(members)[i] == m.id;
    }
  }

  /** In any world, however it came about: if one compared node answers from another cluster, the alarm is raised. */
  lemma OtherClusterRaisesAlarm(w: World, p: nat, q: nat, e: string, view: C.View, myIPs: set<string>, port: string)
    requires p < |w.children| && w.children[p].Some? && ViewOfWorld(w, p, view, myIPs, port)
    requires w.children[p].value.member != 0 && w.children[p].value.cluster != 0
    requires e in C.Compared(view, myIPs, port) && view.answer(e).Some? && AnsweredBy(w, q, view.answer(e).value)
    requires w.children[q].value.cluster != 0 && w.children[q].value.cluster != w.children[p].value.cluster
    ensures C.SeesSplit(view, myIPs, port) && !C.SeesAgreement(view, myIPs, port)
  {
    hide C.Compared;
  }

  /**
   * Exactly when a tick sees a split, in any world: when one compared node answers from another cluster, or from a
   * list without the pod's own member, also if it is of the pod's own cluster.
   */
  lemma SplitSeenIff(w: World, p: nat, view: C.View, myIPs: set<string>, port: string)
    requires p < |w.children| && w.children[p].Some? && ViewOfWorld(w, p, view, myIPs, port)
    requires w.children[p].value.member != 0 && w.children[p].value.cluster != 0 && 0 !in w.clusters
    ensures C.SeesSplit(view, myIPs, port) <==> exists e, q: nat :: Differs(w, p, e, q, view, myIPs, port)
  {
    hide C.Compared, ViewOfWorld;
    var d := w.children[p].value;
    if C.SeesSplit(view, myIPs, port) {
      var e :| e in C.Compared(view, myIPs, port) && view.answer(e).Some?
            && C.Offends(view.answer(e).value, view.localCluster, view.localMember);
      var q := Answerer(w, p, e, view, myIPs, port);
      ListsByID(w.clusters[w.children[q].value.cluster], d.member);
      assert Differs(w, p, e, q, view, myIPs, port);
    }
    if e, q: nat :| Differs(w, p, e, q, view, myIPs, port) {
      ListsByID(w.clusters[w.children[q].value.cluster], d.member);
      LocalIsOwn(w, p, view, myIPs, port);
      assert C.Offends(view.answer(e).value, view.localCluster, view.localMember);
    }
  }

  ghost predicate Differs(w: World, p: nat, e: string, q: nat, view: C.View, myIPs: set<string>, port: string)
    requires p < |w.children| && w.children[p].Some?
  {
    && e in C.Compared(view, myIPs, port) && view.answer(e).Some? && AnsweredBy(w, q, view.answer(e).value)
    && var mine, theirs := w.children[p].value, w.children[q].value;
       theirs.cluster != mine.cluster || forall m | m in w.clusters[theirs.cluster] :: m.id != mine.member
  }

  lemma Answerer(w: World, p: nat, e: string, view: C.View, myIPs: set<string>, port: string) returns (q: nat)
    requires p < |w.children| && w.children[p].Some? && ViewOfWorld(w, p, view, myIPs, port)
    requires e in C.Compared(view, myIPs, port) && view.answer(e).Some?
    ensures AnsweredBy(w, q, view.answer(e).value)
    ensures view.localCluster == w.children[p].value.cluster && view.localMember == w.children[p].value.member
  {
    hide C.Compared, AnsweredBy;
    q :| 0 <= q < |w.children| && AnsweredBy(w, q, view.answer(e).value);
  }

  lemma LocalIsOwn(w: World, p: nat, view: C.View, myIPs: set<string>, port: string)
    requires p < |w.children| && w.children[p].Some? && ViewOfWorld(w, p, view, myIPs, port)
    ensures view.localCluster == w.children[p].value.cluster && view.localMember == w.children[p].value.member
  {
  }

  lemma ListsByID(members: seq<Member>, id: nat)
    ensures id in IDsOf(members) <==> exists m :: m in members && m.id == id
  {
    if m :| m in members && m.id == id {
      var i :| 0 <= i < |members| && members[i] == m;
      assert IDsOf(members)[i] == id;
    }
    if id in IDsOf(members) {
      var i :| 0 <= i < |members| && IDsOf(members)[i] == id;
      assert members[i] in members;
    }
  }

  /** The member that the local etcd lists under the pod's name is the pod's own, and the running one if that is listed. */
  lemma NamedMemberIsOwn(cfg: Config, w: World, p: nat, m: Member)
    requires ValidConfig(cfg) && Sane(cfg, w) && p < |cfg| && w.children[p].Some?
    requires m in w.clusters[w.children[p].value.cluster] && m.name == cfg[p].name
    ensures IsSelf(m, cfg[p].Me())
    ensures (exists o :: o in w.clusters[w.children[p].value.cluster] && o.id == w.children[p].value.member)
        ==> m.id == w.children[p].value.member
  {
    var d := w.children[p].value;
    assert DiskOK(cfg, w, p) && ListOK(cfg, w, d.cluster);
    assert Tidy(w.clusters[d.cluster], cfg[p].Me()) && IsSelf(m, cfg[p].Me());
    hide IsSelf, Owns, Sane, ValidConfig;
  }
}
