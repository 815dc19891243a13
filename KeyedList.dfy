// The list-of-records pattern both apps use for their stored collections:
// `findIndex` by id, replace-or-push ("upsert"), `filter` by id and `find`
// by id. The record's id is given by a key function.
module KeyedList {
  import opened Common

  /** `xs.findIndex(e => key(e) === k)`: the first position whose key is k, or -1. */
  function FindIndex<T>(xs: seq<T>, key: T -> string, k: string): (r: int)
    ensures -1 <= r < |xs|
    ensures r == -1 <==> forall i :: 0 <= i < |xs| ==> key(xs[i]) != k
    ensures 0 <= r ==> key(xs[r]) == k && forall i :: 0 <= i < r ==> key(xs[i]) != k
  {
    if |xs| == 0 then -1
    else if key(xs[0]) == k then 0
    else
      var j := FindIndex(xs[1..], key, k);
      if j == -1 then -1 else j + 1
  }

  /** `xs.find(e => key(e) === k) || null`: the first record whose key is k. */
  function FindFirst<T>(xs: seq<T>, key: T -> string, k: string): (r: Option<T>)
    ensures r.None? <==> forall i :: 0 <= i < |xs| ==> key(xs[i]) != k
    ensures r.Some? ==> key(r.value) == k && r.value in xs
    ensures r.Some? ==> 0 <= FindIndex(xs, key, k) && r.value == xs[FindIndex(xs, key, k)]
  {
    var i := FindIndex(xs, key, k);
    if i >= 0 then Some(xs[i]) else None
  }

  /** The stored list after saving x: the first record with x's key is
      replaced in place, or x is pushed at the end when there is none. */
  function Upsert<T>(xs: seq<T>, x: T, key: T -> string): (r: seq<T>)
    ensures |xs| <= |r| <= |xs| + 1
    ensures x in r
  {
    var i := FindIndex(xs, key, key(x));
    if i >= 0 then assert xs[i := x][i] == x; xs[i := x] else xs + [x]
  }

  /** `xs.filter(e => key(e) !== k)`. */
  function RemoveKey<T>(xs: seq<T>, key: T -> string, k: string): (r: seq<T>)
    ensures |r| <= |xs|
    ensures forall i :: 0 <= i < |r| ==> key(r[i]) != k
  {
    if xs == [] then []
    else if key(xs[0]) == k then RemoveKey(xs[1..], key, k)
    else [xs[0]] + RemoveKey(xs[1..], key, k)
  }

  /** `xs.filter(e => key(e) === k)`. */
  function KeepKey<T>(xs: seq<T>, key: T -> string, k: string): (r: seq<T>)
    ensures |r| <= |xs|
    ensures forall i :: 0 <= i < |r| ==> key(r[i]) == k
  {
    if xs == [] then []
    else if key(xs[0]) == k then [xs[0]] + KeepKey(xs[1..], key, k)
    else KeepKey(xs[1..], key, k)
  }

  /** Saving x changes the length only when x's key was new, and then by one. */
  lemma UpsertLength<T>(xs: seq<T>, x: T, key: T -> string)
    ensures FindFirst(xs, key, key(x)).Some? ==> |Upsert(xs, x, key)| == |xs|
    ensures FindFirst(xs, key, key(x)).None? ==> Upsert(xs, x, key) == xs + [x]
  {
  }

  /** Every position other than the replaced one keeps its record. */
  lemma UpsertInPlace<T>(xs: seq<T>, x: T, key: T -> string, j: nat)
    requires j < |xs| && j != FindIndex(xs, key, key(x))
    ensures j < |Upsert(xs, x, key)| && Upsert(xs, x, key)[j] == xs[j]
  {
  }

  /** Looking a record up right after saving it finds exactly what was saved. */
  lemma FindAfterUpsert<T>(xs: seq<T>, x: T, key: T -> string)
    ensures FindFirst(Upsert(xs, x, key), key, key(x)) == Some(x)
  {
    var i := FindIndex(xs, key, key(x));
    var ys := Upsert(xs, x, key);
    if i >= 0 {
      assert forall j :: 0 <= j < i ==> ys[j] == xs[j];
      FindIndexIs(ys, key, key(x), i);
    } else {
      FindIndexIs(ys, key, key(x), |xs|);
    }
  }

  /** A matching position with no match before it is the one findIndex reports. */
  lemma FindIndexIs<T>(xs: seq<T>, key: T -> string, k: string, i: nat)
    requires i < |xs| && key(xs[i]) == k
    requires forall j :: 0 <= j < i ==> key(xs[j]) != k
    ensures FindIndex(xs, key, k) == i
  {
  }

  /** Saving x does not change what is found under any other key. */
  lemma FindOtherAfterUpsert<T>(xs: seq<T>, x: T, key: T -> string, k: string)
    requires k != key(x)
    ensures FindFirst(Upsert(xs, x, key), key, k) == FindFirst(xs, key, k)
  {
    var i := FindIndex(xs, key, key(x));
    var ys := Upsert(xs, x, key);
    var j := FindIndex(xs, key, k);
    if j >= 0 {
      assert ys[j] == xs[j];
      assert forall m :: 0 <= m < j ==> key(ys[m]) != k;
      assert FindIndex(ys, key, k) == j;
    } else {
      assert forall m :: 0 <= m < |ys| ==> key(ys[m]) != k;
    }
  }

  /** Saving the same record twice is saving it once. */
  lemma UpsertIdempotent<T>(xs: seq<T>, x: T, key: T -> string)
    ensures Upsert(Upsert(xs, x, key), x, key) == Upsert(xs, x, key)
  {
    var ys := Upsert(xs, x, key);
    FindAfterUpsert(xs, x, key);
    var i := FindIndex(ys, key, key(x));
    assert ys[i] == x;
    assert ys[i := x] == ys;
  }

  /** Deleting by a key after saving under it is the same as only deleting. */
  lemma {:induction false} RemoveAfterUpsert<T>(xs: seq<T>, x: T, key: T -> string)
    ensures RemoveKey(Upsert(xs, x, key), key, key(x)) == RemoveKey(xs, key, key(x))
  {
    var i := FindIndex(xs, key, key(x));
    if i >= 0 {
      RemoveKeyAt(xs, key, key(x), i, x);
    } else {
      RemoveKeyConcat(xs, [x], key, key(x));
      assert RemoveKey([x], key, key(x)) == [];
    }
  }

  /** Replacing a record whose key is k by another with key k is invisible to RemoveKey. */
  lemma {:induction false} RemoveKeyAt<T>(xs: seq<T>, key: T -> string, k: string, i: nat, x: T)
    requires i < |xs| && key(xs[i]) == k && key(x) == k
    ensures RemoveKey(xs[i := x], key, k) == RemoveKey(xs, key, k)
  {
    if i > 0 {
      RemoveKeyAt(xs[1..], key, k, i - 1, x);
      assert xs[i := x][1..] == xs[1..][i - 1 := x];
    } else {
      assert xs[i := x][1..] == xs[1..];
    }
  }

  /** Exactly the records of xs whose key is not k survive deleting k. */
  lemma {:induction false} RemoveKeyMembers<T>(xs: seq<T>, key: T -> string, k: string, x: T)
    ensures x in RemoveKey(xs, key, k) <==> x in xs && key(x) != k
  {
    if xs != [] {
      RemoveKeyMembers(xs[1..], key, k, x);
      assert x in xs <==> x == xs[0] || x in xs[1..];
    }
  }

  /** Exactly the records of xs whose key is k are kept. */
  lemma {:induction false} KeepKeyMembers<T>(xs: seq<T>, key: T -> string, k: string, x: T)
    ensures x in KeepKey(xs, key, k) <==> x in xs && key(x) == k
  {
    if xs != [] {
      KeepKeyMembers(xs[1..], key, k, x);
      assert x in xs <==> x == xs[0] || x in xs[1..];
    }
  }

  /** The records kept for key k are exactly the records of xs with key k. */
  lemma KeepKeyExactly<T>(xs: seq<T>, key: T -> string, k: string)
    ensures forall x :: x in KeepKey(xs, key, k) <==> x in xs && key(x) == k
  {
    forall x {
      KeepKeyMembers(xs, key, k, x);
    }
  }

  /** Filtering distributes over concatenation, so order is preserved. */
  lemma {:induction false} RemoveKeyConcat<T>(a: seq<T>, b: seq<T>, key: T -> string, k: string)
    ensures RemoveKey(a + b, key, k) == RemoveKey(a, key, k) + RemoveKey(b, key, k)
  {
    if a == [] {
      assert a + b == b;
    } else {
      var head := if key(a[0]) != k then [a[0]] else [];
      assert (a + b)[0] == a[0] && (a + b)[1..] == a[1..] + b;
      calc {
        RemoveKey(a + b, key, k);
        head + RemoveKey(a[1..] + b, key, k);
        { RemoveKeyConcat(a[1..], b, key, k); }
        head + (RemoveKey(a[1..], key, k) + RemoveKey(b, key, k));
        (head + RemoveKey(a[1..], key, k)) + RemoveKey(b, key, k);
        RemoveKey(a, key, k) + RemoveKey(b, key, k);
      }
    }
  }

  /** Filtering distributes over concatenation, so order is preserved. */
  lemma {:induction false} KeepKeyConcat<T>(a: seq<T>, b: seq<T>, key: T -> string, k: string)
    ensures KeepKey(a + b, key, k) == KeepKey(a, key, k) + KeepKey(b, key, k)
  {
    if a == [] {
      assert a + b == b;
    } else {
      var head := if key(a[0]) == k then [a[0]] else [];
      assert (a + b)[0] == a[0] && (a + b)[1..] == a[1..] + b;
      calc {
        KeepKey(a + b, key, k);
        head + KeepKey(a[1..] + b, key, k);
        { KeepKeyConcat(a[1..], b, key, k); }
        head + (KeepKey(a[1..], key, k) + KeepKey(b, key, k));
        (head + KeepKey(a[1..], key, k)) + KeepKey(b, key, k);
        KeepKey(a, key, k) + KeepKey(b, key, k);
      }
    }
  }

  /** A list none of whose records has key k loses nothing to RemoveKey. */
  lemma {:induction false} RemoveKeyAbsent<T>(xs: seq<T>, key: T -> string, k: string)
    requires forall i :: 0 <= i < |xs| ==> key(xs[i]) != k
    ensures RemoveKey(xs, key, k) == xs
  {
    if xs != [] {
      RemoveKeyAbsent(xs[1..], key, k);
    }
  }

  /** The two filters split the list: every record goes to exactly one side. */
  lemma {:induction false} FilterPartition<T>(xs: seq<T>, key: T -> string, k: string)
    ensures multiset(KeepKey(xs, key, k)) + multiset(RemoveKey(xs, key, k)) == multiset(xs)
  {
    if xs != [] {
      var h, t := xs[0], xs[1..];
      FilterPartition(t, key, k);
      assert xs == [h] + t;
      assert multiset(xs) == multiset{h} + multiset(t);
      if key(h) == k {
        assert KeepKey(xs, key, k) == [h] + KeepKey(t, key, k);
        assert RemoveKey(xs, key, k) == RemoveKey(t, key, k);
        assert multiset(KeepKey(xs, key, k)) == multiset{h} + multiset(KeepKey(t, key, k));
      } else {
        assert RemoveKey(xs, key, k) == [h] + RemoveKey(t, key, k);
        assert KeepKey(xs, key, k) == KeepKey(t, key, k);
        assert multiset(RemoveKey(xs, key, k)) == multiset{h} + multiset(RemoveKey(t, key, k));
      }
    }
  }

  /** After deleting key k nothing is found under k, and every other key
      still finds what it found before. */
  lemma {:induction false} FindAfterRemove<T>(xs: seq<T>, key: T -> string, k: string, j: string)
    ensures FindFirst(RemoveKey(xs, key, k), key, k) == None
    ensures j != k ==> FindFirst(RemoveKey(xs, key, k), key, j) == FindFirst(xs, key, j)
  {
    var r := RemoveKey(xs, key, k);
    if xs != [] && j != k {
      FindAfterRemove(xs[1..], key, k, j);
      if key(xs[0]) != k {
        assert r == [xs[0]] + RemoveKey(xs[1..], key, k);
        if key(xs[0]) != j {
          FindIndexTail(r, key, j);
        }
      }
      if key(xs[0]) != j {
        FindIndexTail(xs, key, j);
      }
    }
  }

  /** When the head does not match, `find` continues in the tail. */
  lemma FindIndexTail<T>(xs: seq<T>, key: T -> string, k: string)
    requires xs != [] && key(xs[0]) != k
    ensures FindFirst(xs, key, k) == FindFirst(xs[1..], key, k)
  {
  }
}
