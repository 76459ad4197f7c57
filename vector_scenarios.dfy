/**
 * The walk through the vector macros of tests/test-vector.c, and the index
 * past the end that `VECTOR_INSERT` accepts.
 */
module VectorScenarios {
  import opened LastMatch
  import opened Vectors

  /** A new vector after `VECTOR_APPEND` of `x` and then of `y`; `first` is what it held after the first. */
  method AppendTwo(x: int, y: int) returns (v: Vector<int>, first: seq<int>)
    ensures fresh(v) && v.Valid() && v.base != null && fresh(v.base)
    ensures first == [x] && v.Contents() == [x, y] && v.alloc == 128
  {
    v := new Vector<int>();
    var ok := v.Append(x, true);
    first := v.Contents();
    ok := v.Append(y, true);
  }

  /**
   * The first half of the walk: append 8 and 9, insert 7 at 0, delete
   * index 1; `VECTOR_LAST` is then the element at index 1. The vector is
   * handed on to the second half.
   */
  method InsertThenDelete() returns (v: Vector<int>, seen: seq<seq<int>>, last: int)
    ensures fresh(v) && v.Valid() && v.base != null && fresh(v.base)
    ensures seen == [[8], [8, 9], [7, 8, 9], [7, 9]] && v.Contents() == [7, 9]
    ensures last == 9
  {
    var s1;
    v, s1 := AppendTwo(8, 9);
    var s2 := v.Contents();
    var ok := v.Insert(0, 7, true);
    var s3 := v.Contents();
    assert s3 == [7, 8, 9] by { assert InsertAt(s2, 0, 7) == [7, 8, 9]; }
    v.Del(1);
    var s4 := v.Contents();
    assert s4 == [7, 9] by { assert RemoveAt(s3, 1) == [7, 9]; }
    last := v.Last();
    seen := [s1, s2, s3, s4];
  }

  /**
   * The second half, on the vector the first half leaves ([7, 9]): pop twice
   * (9, then 7), insert 6 at 0 into the empty vector, then free it.
   */
  method PopThenInsert() returns (seen: seq<seq<int>>, popped: seq<int>)
    ensures seen == [[7, 9], [7], [], [6]]
    ensures popped == [9, 7]
  {
    var v, _, _ := InsertThenDelete();
    var s4 := v.Contents();
    var a := v.Pop();
    var s5 := v.Contents();
    assert s5 == [7] && a == 9 by { assert s4 == s5 + [a]; }
    var b := v.Pop();
    var s6 := v.Contents();
    assert s6 == [] && b == 7 by { assert s5 == s6 + [b]; }
    var ok := v.Insert(0, 6, true);
    var s7 := v.Contents();
    assert s7 == [6] by { assert InsertAt(s6, 0, 6) == [6]; }
    seen, popped := [s4, s5, s6, s7], [a, b];
    v.Free();
  }

  /**
   * On [8, 9] (128 slots), `VECTOR_INSERT` at index 5 reports success, stores
   * 7 in slot 5 beyond the elements and leaves the elements as they were;
   * the corrected insert refuses the index.
   */
  method InsertPastEnd() returns (asWritten: bool, kept: seq<int>, corrected: bool, after: seq<int>)
    ensures asWritten && kept == [8, 9]
    ensures !corrected && after == [8, 9]
  {
    var v, _ := AppendTwo(8, 9);
    asWritten := v.InsertAsWritten(5, 7, true);
    assert v.base[5] == 7;
    kept := v.Contents();
    corrected := v.Insert(5, 7, true);
    after := v.Contents();
  }

  /**
   * On a new vector, `VECTOR_INSERT` at index 5 first grows the buffer to 128
   * slots, then stores 7 in slot 5 and reports success; the vector stays empty.
   */
  method InsertPastEndFresh() returns (asWritten: bool, kept: seq<int>, slots: nat, stored: int)
    ensures asWritten && kept == [] && slots == 128 && stored == 7
  {
    var v := new Vector<int>();
    asWritten := v.InsertAsWritten(5, 7, true);
    kept := v.Contents();
    slots := v.alloc;
    stored := v.base[5];
  }
}
