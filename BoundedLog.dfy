// The "keep only the last 100" rule shared by every log and history in the
// two apps: JavaScript's `list.slice(-n)` for a positive n.
module BoundedLog {

  /** `s.slice(-n)` for n > 0: the last n elements, or all of them when there are fewer. */
  function KeepLast<T>(s: seq<T>, n: nat): (r: seq<T>)
    requires n > 0
    ensures |r| == if |s| <= n then |s| else n
    ensures r == s[|s| - |r|..]
  {
    if |s| <= n then s else s[|s| - n..]
  }

  /** Appending one entry and trimming keeps it as the newest entry and
      keeps the newest n - 1 older entries in their order. */
  lemma KeepLastAppend<T>(s: seq<T>, x: T, n: nat)
    requires n > 0
    ensures KeepLast(s + [x], n) == KeepLast(s, n) [|KeepLast(s, n)| - (|KeepLast(s + [x], n)| - 1)..] + [x]
    ensures |KeepLast(s + [x], n)| == if |s| < n then |s| + 1 else n
  {
    var t := s + [x];
    var r := KeepLast(t, n);
    var k := KeepLast(s, n);
    assert r[..|r| - 1] == s[|s| - (|r| - 1)..];
    assert k[|k| - (|r| - 1)..] == s[|s| - (|r| - 1)..];
  }

  /** Trimming on every append (as permissions.ts does) leaves the same
      list as trimming the whole history once (as the log savers do). */
  lemma KeepLastIncremental<T>(s: seq<T>, x: T, n: nat)
    requires n > 0
    ensures KeepLast(KeepLast(s, n) + [x], n) == KeepLast(s + [x], n)
  {
    var k := KeepLast(s, n);
    var lhs := KeepLast(k + [x], n);
    var rhs := KeepLast(s + [x], n);
    assert |lhs| == |rhs|;
    forall i | 0 <= i < |lhs|
      ensures lhs[i] == rhs[i]
    {
      if i < |lhs| - 1 {
        assert lhs[i] == k[|k| + 1 - |lhs| + i];
        assert rhs[i] == s[|s| + 1 - |rhs| + i];
      }
    }
  }

  /** Trimming twice is trimming once. */
  lemma KeepLastIdempotent<T>(s: seq<T>, n: nat)
    requires n > 0
    ensures KeepLast(KeepLast(s, n), n) == KeepLast(s, n)
  {
  }
}
