/**
 * The backward searches with which wires and drivers remove one entry from
 * their attachment and listener lists: the most recently appended match goes.
 */
module LastMatch {

  /** Where the last occurrence of `x` in `s` is. */
  function LastIndex<T(==)>(s: seq<T>, x: T): (i: nat)
    requires x in s
    ensures i < |s| && s[i] == x
    ensures forall j :: i < j < |s| ==> s[j] != x
  {
    if s[|s| - 1] == x then |s| - 1 else LastIndex(s[..|s| - 1], x)
  }

  /** `s` without its element at `i` (a VECTOR_DEL). */
  function RemoveAt<T>(s: seq<T>, i: nat): (r: seq<T>)
    requires i < |s|
    ensures |r| == |s| - 1
    ensures forall j :: 0 <= j < i ==> r[j] == s[j]
    ensures forall j :: i <= j < |r| ==> r[j] == s[j + 1]
    ensures multiset(r) == multiset(s) - multiset{s[i]}
  {
    assert s == s[..i] + [s[i]] + s[i + 1..];
    s[..i] + s[i + 1..]
  }

  /** `s` without the last occurrence of `x`; `s` itself when `x` does not occur. */
  function RemoveLast<T(==)>(s: seq<T>, x: T): (r: seq<T>)
    ensures x in s ==> |r| == |s| - 1
    ensures x !in s ==> r == s
  {
    if x in s then RemoveAt(s, LastIndex(s, x)) else s
  }

  /** Removing the last occurrence of `x` takes exactly one `x` out of the multiset, if there is one. */
  lemma RemoveLastMultiset<T>(s: seq<T>, x: T)
    ensures multiset(RemoveLast(s, x)) == multiset(s) - multiset{x}
  {
  }

  /** The loop `for (i = len; i--; ) if (at(i) == x) break;` */
  method FindLast<T(==)>(s: seq<T>, x: T) returns (found: bool, i: nat)
    ensures found <==> x in s
    ensures found ==> i == LastIndex(s, x)
  {
    found, i := false, |s|;
    while i > 0
      invariant 0 <= i <= |s|
      invariant forall j :: i <= j < |s| ==> s[j] != x
    {
      i := i - 1;
      if s[i] == x {
        return true, i;
      }
    }
    return false, 0;
  }

  /** Removing the last occurrence of the element just appended undoes the append. */
  lemma {:induction false} RemoveLastAppended<T>(s: seq<T>, x: T)
    ensures RemoveLast(s + [x], x) == s
  {
    var t := s + [x];
    assert LastIndex(t, x) == |s|;
    assert t[..|s|] == s;
  }

  /** Removing the last occurrence of the last element drops the last element. */
  lemma {:induction false} RemoveLastOfLast<T>(s: seq<T>)
    requires |s| > 0
    ensures RemoveLast(s, s[|s| - 1]) == s[..|s| - 1]
  {
    assert LastIndex(s, s[|s| - 1]) == |s| - 1;
  }
}
