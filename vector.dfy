/**
 * The demand-grown array under every list of the wire core
 * (util/vector.c and the macros of include/qemu/vector.h): a buffer of
 * `alloc` slots of which the first `len` hold the elements.
 */
module Vectors {
  import opened LastMatch

  /** The largest request `vector_grow` rounds without the unsigned sum `n + 127` wrapping around. */
  const MAX_GROW: nat := 0xFFFF_FF80

  /** `(n + 127) & ~127`: `n` rounded up to a multiple of 128. */
  function RoundUp(n: nat): (m: nat)
    ensures m % 128 == 0 && n <= m < n + 128
  {
    (n + 127) / 128 * 128
  }

  /** `s` with `e` placed at index `i` and the old `s[i..]` one place further right. */
  function InsertAt<T>(s: seq<T>, i: nat, e: T): (r: seq<T>)
    requires i <= |s|
    ensures |r| == |s| + 1 && r[i] == e
    ensures forall k :: 0 <= k < i ==> r[k] == s[k]
    ensures forall k :: i < k < |r| ==> r[k] == s[k - 1]
  {
    s[..i] + [e] + s[i..]
  }

  /** Deleting the element just inserted gives back the original sequence. */
  lemma DeleteInserted<T>(s: seq<T>, i: nat, e: T)
    requires i <= |s|
    ensures RemoveAt(InsertAt(s, i, e), i) == s
  {
    var r := RemoveAt(InsertAt(s, i, e), i);
    assert |r| == |s|;
    forall k | 0 <= k < |s|
      ensures r[k] == s[k]
    {
      if k >= i {
        assert r[k] == InsertAt(s, i, e)[k + 1];
      }
    }
  }

  /** Inserting at the end is appending. */
  lemma InsertAtEnd<T>(s: seq<T>, e: T)
    ensures InsertAt(s, |s|, e) == s + [e]
  {
    assert s[..|s|] == s;
  }

  /** `struct vector`, seen through `VECTOR_OF(T)`. */
  class Vector<T(0)> {
    var base: array?<T>
    var len: nat
    var alloc: nat

    /** At most `alloc` elements; a NULL buffer has no slots. */
    ghost predicate Valid()
      reads this
    {
      len <= alloc && (if base == null then alloc == 0 else base.Length == alloc)
    }

    /** The elements, `VECTOR_AT(v, 0)` to `VECTOR_AT(v, len - 1)`. */
    function Contents(): (s: seq<T>)
      reads this, base
      requires Valid()
      ensures |s| == len
    {
      if base == null then [] else base[..len]
    }

    /** `vector_init`: no buffer, no elements. */
    constructor ()
      ensures Valid() && base == null && len == 0 && alloc == 0 && Contents() == []
    {
      base, len, alloc := null, 0, 0;
    }

    /** `vector_free`: release the buffer and return to the state `vector_init` leaves. */
    method Free()
      modifies this
      ensures Valid() && base == null && len == 0 && alloc == 0 && Contents() == []
    {
      base, len, alloc := null, 0, 0;
    }

    /**
     * `vector_grow`: make room for `n` elements. `allocOk` is the
     * allocator's answer when a larger buffer is needed.
     */
    method Grow(n: nat, allocOk: bool) returns (ok: bool)
      requires Valid() && n <= MAX_GROW
      modifies this
      ensures Valid() && len == old(len) && Contents() == old(Contents())
      ensures base == old(base) || fresh(base)
      ensures n <= old(alloc) ==> ok && base == old(base) && alloc == old(alloc)
      ensures n > old(alloc) && allocOk ==> ok && alloc == RoundUp(n) && fresh(base)
      ensures n > old(alloc) && !allocOk ==> !ok && base == old(base) && alloc == old(alloc)
      ensures ok ==> n <= alloc
    {
      if n > alloc {
        var newAlloc := RoundUp(n);
        if !allocOk {
          return false;
        }
        var newBase := new T[newAlloc];
        if base != null {
          // g_realloc keeps the whole old block
          forall k | 0 <= k < alloc {
            newBase[k] := base[k];
          }
          assert newBase[..len] == base[..len];
        }
        base, alloc := newBase, newAlloc;
      }
      return true;
    }

    /** `vector_del`: close the gap at `i` by shifting the later elements left; nothing for `i >= len`. */
    method Del(i: nat)
      requires Valid()
      modifies this, base
      ensures Valid() && base == old(base) && alloc == old(alloc)
      ensures Contents() == if i < old(len) then RemoveAt(old(Contents()), i) else old(Contents())
    {
      if i < len {
        var j := i;
        while j + 1 < len
          invariant Valid() && len == old(len) && base == old(base) && alloc == old(alloc)
          invariant i <= j < len && base != null
          invariant forall k :: 0 <= k < i ==> base[k] == old(base[k])
          invariant forall k :: i <= k < j ==> base[k] == old(base[k + 1])
          invariant forall k :: j <= k < base.Length ==> base[k] == old(base[k])
        {
          base[j] := base[j + 1];
          j := j + 1;
        }
        len := len - 1;
      }
    }

    /**
     * `vector_ins`: open a gap at `i <= len` by shifting the elements from
     * `i` one place right; slot `i` keeps what it held. Returns `i`; for
     * `i > len` nothing changes.
     */
    method Ins(i: nat) returns (r: nat)
      requires Valid() && (i <= len ==> len < alloc)
      modifies this, base
      ensures Valid() && base == old(base) && alloc == old(alloc) && r == i
      ensures i > old(len) ==> len == old(len) && Contents() == old(Contents()) && (base != null ==> unchanged(base))
      ensures i <= old(len) ==> base != null && Contents() == InsertAt(old(Contents()), i, old(base[i]))
    {
      if i <= len {
        var j := len;
        while j > i
          invariant Valid() && len == old(len) && base == old(base) && alloc == old(alloc)
          invariant i <= j <= len && base != null
          invariant forall k :: 0 <= k <= j ==> base[k] == old(base[k])
          invariant forall k :: j < k <= len ==> base[k] == old(base[k - 1])
          invariant forall k :: len < k < base.Length ==> base[k] == old(base[k])
        {
          base[j] := base[j - 1];
          j := j - 1;
        }
        len := len + 1;
      }
      return i;
    }

    /** `VECTOR_APPEND`: grow to `len + 1`, then store `e` at `len` and count it; 0 when growing fails. */
    method Append(e: T, allocOk: bool) returns (ok: bool)
      requires Valid() && len < MAX_GROW
      modifies this, base
      ensures Valid()
      ensures base == old(base) || fresh(base)
      ensures ok <==> old(len) < old(alloc) || allocOk
      ensures ok ==> Contents() == old(Contents()) + [e]
      ensures !ok ==> Contents() == old(Contents()) && alloc == old(alloc)
      ensures old(len) < old(alloc) ==> base == old(base) && alloc == old(alloc)
      ensures ok && old(len) == old(alloc) ==> alloc == RoundUp(old(len) + 1)
    {
      ok := Grow(len + 1, allocOk);
      if ok {
        base[len] := e;
        len := len + 1;
      }
    }

    /**
     * `VECTOR_INSERT` as it should behave: `e` placed at `i`, the old
     * `[i..]` shifted right; 0 when growing fails or `i` is past the end.
     */
    method Insert(i: nat, e: T, allocOk: bool) returns (ok: bool)
      requires Valid() && len < MAX_GROW
      modifies this, base
      ensures Valid()
      ensures base == old(base) || fresh(base)
      ensures i > old(len) ==> !ok && Contents() == old(Contents())
      ensures i <= old(len) ==> (ok <==> old(len) < old(alloc) || allocOk)
      ensures ok ==> Contents() == InsertAt(old(Contents()), i, e)
      ensures !ok ==> Contents() == old(Contents())
    {
      if i > len {
        return false;
      }
      ok := Grow(len + 1, allocOk);
      if ok {
        ghost var s := Contents();
        var k := Ins(i);
        base[k] := e;
        assert Contents() == InsertAt(s, i, e);
      }
    }

    /**
     * `VECTOR_INSERT` as written: `vector_ins` ignores an index past the
     * end, but the macro still stores `e` at that index and reports success.
     * Here an index past the end lies inside the buffer as grown, so the store
     * is in bounds.
     */
    method InsertAsWritten(i: nat, e: T, allocOk: bool) returns (ok: bool)
      requires Valid() && len < MAX_GROW
      requires i > len && (len < alloc || allocOk) ==> i < (if len < alloc then alloc else RoundUp(len + 1))
      modifies this, base
      ensures Valid()
      ensures base == old(base) || fresh(base)
      ensures ok <==> old(len) < old(alloc) || allocOk
      ensures !ok ==> Contents() == old(Contents())
      ensures i > old(len) && ok ==> Contents() == old(Contents()) && base != null && i < base.Length && base[i] == e
      ensures i <= old(len) && ok ==> Contents() == InsertAt(old(Contents()), i, e)
      ensures old(len) < old(alloc) ==> alloc == old(alloc)
      ensures ok && old(len) == old(alloc) ==> alloc == RoundUp(old(len) + 1)
    {
      ok := Grow(len + 1, allocOk);
      if ok {
        ghost var s := Contents();
        var k := Ins(i);
        base[k] := e;
        if i <= old(len) {
          assert Contents() == InsertAt(s, i, e);
        } else {
          assert Contents() == s;
        }
      }
    }

    /** `VECTOR_POP`: uncount and return the last element. */
    method Pop() returns (e: T)
      requires Valid() && len > 0
      modifies this
      ensures Valid() && base == old(base) && alloc == old(alloc)
      ensures old(Contents()) == Contents() + [e]
    {
      len := len - 1;
      e := base[len];
    }

    /** `VECTOR_LEN`. */
    function Len(): (n: nat)
      reads this, base
      requires Valid()
      ensures n == |Contents()|
    {
      len
    }

    /** `VECTOR_AT(v, i)`. */
    function At(i: nat): (e: T)
      reads this, base
      requires Valid() && i < len
      ensures e == Contents()[i]
    {
      base[i]
    }

    /** `VECTOR_LAST`: the element at `len - 1`. */
    function Last(): (e: T)
      reads this, base
      requires Valid() && len > 0
      ensures e == Contents()[|Contents()| - 1] && e == At(Len() - 1)
    {
      base[len - 1]
    }
  }
}
