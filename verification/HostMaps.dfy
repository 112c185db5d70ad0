/** A subscriber's own copy of the published host map, and the loop that brings it up to date. */
module HostMaps {
  import opened Base

  /** Key k is present, absent or bound differently in the two maps. */
  predicate Differs<K(==), V(==)>(a: map<K, set<V>>, b: map<K, set<V>>, k: K) {
    (k in a) != (k in b) || (k in a && k in b && a[k] != b[k])
  }

  lemma DiffersAt<K, V>(a: map<K, set<V>>, b: map<K, set<V>>, k: K)
    requires k in b
    ensures Differs(a, b, k) <==> k !in a || b[k] != a[k]
  {
  }

  lemma NoDifference<K, V>(a: map<K, set<V>>, b: map<K, set<V>>)
    ensures a == b <==> forall k :: !Differs(a, b, k)
  {
    if forall k :: !Differs(a, b, k) {
      assert forall k :: k in a <==> k in b by {
        forall k ensures k in a <==> k in b {
          assert !Differs(a, b, k);
        }
      }
      forall k | k in a ensures a[k] == b[k] {
        assert !Differs(a, b, k);
      }
      assert a == b;
    }
  }

  lemma ChangedIsExact<K, V>(was: map<K, set<V>>, origin: map<K, set<V>>, added: seq<K>, gone: seq<K>)
    requires NoDup(added) && forall k :: k in added <==> k in origin && Differs(was, origin, k)
    requires NoDup(gone) && forall k :: k in gone <==> k in was && k !in origin
    ensures NoDup(added + gone) && forall k :: k in added + gone <==> Differs(was, origin, k)
    ensures added + gone == [] <==> was == origin
  {
    var changed := added + gone;
    forall i, j | 0 <= i < j < |changed| ensures changed[i] != changed[j] {
      assert i < |added| <= j ==> changed[i] in added && changed[j] in gone;
    }
    assert forall k :: k in changed <==> k in added || k in gone;
    NoDifference(was, origin);
    if changed != [] {
      assert changed[0] in changed;
    }
  }

  lemma AppendNew<T>(s: seq<T>, x: T)
    requires NoDup(s) && x !in s
    ensures NoDup(s + [x]) && forall y :: y in s + [x] <==> y in s || y == x
  {
  }

  class HostDict<K(==), V(==)> {
    var data: map<K, set<V>>

    constructor ()
      ensures data == map[]
    {
      data := map[];
    }

    /**
     * The two loops of the ConfigMap and of the pod subscriber. Whatever the old copy and the message, the copy ends
     * equal to the message; `changed` lists exactly the keys that differed, each once.
     */
    method Apply(origin: map<K, set<V>>) returns (changed: seq<K>)
      modifies this
      ensures data == origin
      ensures NoDup(changed) && forall k :: k in changed <==> Differs(old(data), origin, k)
      ensures changed == [] <==> old(data) == origin
    {
      ghost var was := data;
      changed := AddOrUpdate(origin);
      var gone := [];
      if |data| > |origin| {
        gone := RemoveAbsent(origin, was);
      } else {
        SubsetOfSameSizeOrLess(origin.Keys, data.Keys);
      }
      assert data == origin;
      ChangedIsExact(was, origin, changed, gone);
      changed := changed + gone;
    }

    method AddOrUpdate(origin: map<K, set<V>>) returns (changed: seq<K>)
      modifies this
      ensures data.Keys == old(data).Keys + origin.Keys
      ensures forall k | k in data :: data[k] == if k in origin then origin[k] else old(data)[k]
      ensures NoDup(changed) && forall k :: k in changed <==> k in origin && Differs(old(data), origin, k)
    {
      changed := [];
      var rest := origin.Keys;
      assert NoDup(changed);
      hide NoDup, Differs;
      while rest != {}
        invariant rest <= origin.Keys
        invariant data.Keys == old(data).Keys + (origin.Keys - rest)
        invariant forall k | k in data :: data[k] == if k in origin && k !in rest then origin[k] else old(data)[k]
        invariant NoDup(changed)
        invariant forall k :: k in changed <==> k in origin && k !in rest && Differs(old(data), origin, k)
        decreases rest
      {
        var k :| k in rest;
        DiffersAt(old(data), origin, k);
        if k !in data || origin[k] != data[k] {
          AppendNew(changed, k);
          changed := changed + [k];
          data := data[k := origin[k]];
        }
        rest := rest - {k};
      }
    }

    method RemoveAbsent(origin: map<K, set<V>>, ghost was: map<K, set<V>>) returns (gone: seq<K>)
      requires data.Keys == was.Keys + origin.Keys
      modifies this
      ensures data.Keys == origin.Keys && forall k | k in data :: data[k] == old(data)[k]
      ensures NoDup(gone) && forall k :: k in gone <==> k in was && k !in origin
    {
      gone := [];
      var rest := data.Keys;
      assert NoDup(gone);
      hide NoDup;
      while rest != {}
        invariant rest <= old(data).Keys
        invariant forall k :: k in data <==> k in old(data) && (k in rest || k in origin)
        invariant forall k | k in data :: data[k] == old(data)[k]
        invariant NoDup(gone) && forall k :: k in gone <==> k in old(data) && k !in rest && k !in origin
        decreases rest
      {
        var k :| k in rest;
        if k !in origin {
          AppendNew(gone, k);
          gone := gone + [k];
          data := data - {k};
        }
        rest := rest - {k};
      }
    }
  }

  /** The size test that guards the second loop is sound: if the copy is not larger, no key is left over. */
  lemma SubsetOfSameSizeOrLess<T>(a: set<T>, b: set<T>)
    requires a <= b && |b| <= |a|
    ensures a == b
  {
    SubsetSize(a, b);
    SubsetOfSameSize(a, b);
  }
}
