/** Options, and the facts about sequences, sets and multisets that several modules share. */
module Base {

  datatype Option<+T> = None | Some(value: T)

  function ToSet<T>(s: seq<T>): set<T> {
    set x | x in s
  }

  ghost predicate NoDup<T>(s: seq<T>) {
    forall i, j | 0 <= i < j < |s| :: s[i] != s[j]
  }

  /** A list is duplicate-free exactly when its set of elements is as large as the list. */
  lemma {:induction false} SizeOfToSet<T>(s: seq<T>)
    ensures |ToSet(s)| <= |s|
    ensures |ToSet(s)| == |s| <==> NoDup(s)
  {
    if s == [] {
      assert ToSet(s) == {};
    } else {
      var n := |s| - 1;
      var init := s[..n];
      SizeOfToSet(init);
      assert s == init + [s[n]];
      assert ToSet(s) == ToSet(init) + {s[n]};
      if s[n] in init {
        var k :| 0 <= k < n && init[k] == s[n];
        assert s[k] == s[n];
        assert ToSet(s) == ToSet(init);
      } else if NoDup(init) {
        assert NoDup(s);
      } else {
        var i, j :| 0 <= i < j < n && init[i] == init[j];
        assert s[i] == s[j];
      }
    }
  }

  /** A set that contains another of the same size is that other set. */
  lemma SubsetOfSameSize<T>(a: set<T>, b: set<T>)
    requires a <= b && |a| == |b|
    ensures a == b
  {
    assert |b - a| == |b| - |a|;
  }

  lemma {:induction false} SubsetSize<T>(a: set<T>, b: set<T>)
    requires a <= b
    ensures |a| <= |b|
  {
    assert |b - a| == |b| - |a|;
  }

  /** Two arrangements of the same elements have the same set, the same size, and are both or neither duplicate-free. */
  lemma SameElements<T>(a: seq<T>, b: seq<T>)
    requires multiset(a) == multiset(b)
    ensures ToSet(a) == ToSet(b) && |a| == |b|
    ensures NoDup(a) <==> NoDup(b)
  {
    forall x ensures x in a <==> x in b {
      assert x in a <==> x in multiset(a);
      assert x in b <==> x in multiset(b);
    }
    assert |multiset(a)| == |a| && |multiset(b)| == |b|;
    SizeOfToSet(a);
    SizeOfToSet(b);
  }
}
