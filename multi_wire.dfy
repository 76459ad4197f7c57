/**
 * The multi-wire listener of hw/core/wire.c: one listener registered on
 * several wires, which folds their readings into a bit mask and a weakest
 * strength and calls its own handler only when that combined view changes.
 */
module MultiWire {
  import opened Optional
  import opened Levels
  import opened LastMatch
  import opened Wire
  import opened Sensing

  /** What a multi-listener remembers between calls: the last mask, weakest strength and conflict flag. */
  datatype Memory = Memory(value: bv32, weakest: Strength, inConflict: bool)

  /** One call of the user's multi-handler: the mask, the weakest strength and the number of wires. */
  datatype Report = Report(value: bv32, weakest: Strength, n: nat)

  /** Every non-NULL wire pointer in `ids` names one of `n` wires. */
  predicate Targets(ids: seq<Option<WireId>>, n: nat)
  {
    forall i :: 0 <= i < |ids| && ids[i].Some? ==> ids[i].value < n
  }

  /** The wires `ids` point at, as the circuit `ws` holds them; NULL stays NULL. */
  function Snapshot(ids: seq<Option<WireId>>, ws: seq<WireState>): seq<Option<WireState>>
    requires Targets(ids, |ws|)
  {
    seq(|ids|, i requires 0 <= i < |ids| => if ids[i].None? then None else Some(ws[ids[i].value]))
  }

  /** Some wire read is in conflict. */
  predicate AnyConflict(ws: seq<Option<WireState>>)
  {
    exists k :: 0 <= k < |ws| && SenseConflicted(ws[k])
  }

  /**
   * The first loop of `multi_handler`: look for a conflicted wire from the
   * last to the first, stopping at the first one found.
   */
  method ScanConflict(ws: seq<Option<WireState>>) returns (inConflict: bool)
    ensures inConflict <==> AnyConflict(ws)
  {
    inConflict := false;
    var i := |ws|;
    while !inConflict && i > 0
      invariant 0 <= i <= |ws|
      invariant inConflict ==> i < |ws| && SenseConflicted(ws[i])
      invariant !inConflict ==> forall k :: i <= k < |ws| ==> !SenseConflicted(ws[k])
    {
      i := i - 1;
      inConflict := ws[i].Some? && ws[i].value.isConflict;
    }
  }

  /** What the handler can observe of a memory: the conflict flag and, unless Hi-Z, the mask. */
  function View(m: Memory): (bool, Option<bv32>)
  {
    (m.inConflict, if m.weakest == HI_Z then None else Some(m.value))
  }

  /**
   * The change rule of `multi_handler`: conflict toggles, the weakest strength
   * goes to or leaves Hi-Z, or, while driven, the mask differs or more than
   * 32 wires are watched (the mask cannot show wires beyond the 32nd).
   */
  function Changed(was: Memory, now: Memory, n: nat): bool
  {
    now.inConflict != was.inConflict ||
    (now.weakest == HI_Z && was.weakest != HI_Z) ||
    (now.weakest != HI_Z && was.weakest == HI_Z) ||
    (now.weakest != HI_Z && (now.value != was.value || n > 32))
  }

  /** Up to 32 wires, the rule fires exactly when the observable view differs. */
  lemma ChangedIffViewDiffers(was: Memory, now: Memory, n: nat)
    ensures n <= 32 ==> (Changed(was, now, n) <==> View(was) != View(now))
    ensures n > 32 ==> (Changed(was, now, n) <==> View(was) != View(now) || now.weakest != HI_Z)
  {
  }

  /** The memory a call of `multi_handler` computes from the wires it reads. */
  function Fresh(ws: seq<Option<WireState>>): (m: Memory)
  {
    var k := Clamp32(|ws|);
    Memory(SenseBits(ws[..k]), Weakest(ws[..k]), AnyConflict(ws))
  }

  /**
   * One call of `multi_handler` on a listener whose wires read `ws`: the new
   * memory, and the report handed to the user's handler if it is called.
   */
  function Step(m: Memory, ws: seq<Option<WireState>>): (Memory, Option<Report>)
  {
    var now := Fresh(ws);
    if now.inConflict && m.inConflict then (m, None)
    else if Changed(m, now, |ws|) then (now, Some(Report(now.value, now.weakest, |ws|)))
    else (m, None)
  }

  /** While the wires stay in conflict the handler is silent and nothing is recorded. */
  lemma SuppressedWhileInConflict(m: Memory, ws: seq<Option<WireState>>)
    requires m.inConflict && AnyConflict(ws)
    ensures Step(m, ws) == (m, None)
  {
  }

  /**
   * Up to 32 wires and outside a continuing conflict, the handler is called
   * exactly when the view changes, and afterwards the memory holds the view reported.
   */
  lemma FiresOnObservedChange(m: Memory, ws: seq<Option<WireState>>)
    requires |ws| <= 32 && !(m.inConflict && AnyConflict(ws))
    ensures Step(m, ws).1.Some? <==> View(m) != View(Fresh(ws))
    ensures View(Step(m, ws).0) == View(Fresh(ws))
  {
    ChangedIffViewDiffers(m, Fresh(ws), |ws|);
  }

  /** With more than 32 wires, every call while driven and not still in conflict fires. */
  lemma OverwideFiresWhileDriven(m: Memory, ws: seq<Option<WireState>>)
    requires |ws| > 32 && !(m.inConflict && AnyConflict(ws)) && Fresh(ws).weakest != HI_Z
    ensures Step(m, ws).1 == Some(Report(Fresh(ws).value, Fresh(ws).weakest, |ws|))
  {
  }

  /**
   * A report carries one bit per wire read (the first 32): bit j is set
   * exactly when wire j reads true; the weakest strength bounds every wire read.
   */
  lemma ReportMeansReadings(m: Memory, ws: seq<Option<WireState>>)
    requires Step(m, ws).1.Some?
    ensures var r := Step(m, ws).1.value;
            r.n == |ws| &&
            (forall j :: 0 <= j < Clamp32(|ws|) ==> (r.value & Bit(j) != 0 <==> Sense(ws[j]).value)) &&
            (forall j :: 0 <= j < Clamp32(|ws|) ==> r.weakest <= SenseStrength(ws[j])) &&
            Step(m, ws).0 == Memory(r.value, r.weakest, AnyConflict(ws))
  {
    FreshMeansReadings(ws);
  }

  /** The mask computed from the wires has bit j set exactly when wire j reads true. */
  lemma {:induction false} FreshMeansReadings(ws: seq<Option<WireState>>)
    ensures forall j :: 0 <= j < Clamp32(|ws|) ==> (Fresh(ws).value & Bit(j) != 0 <==> Sense(ws[j]).value)
    ensures forall j :: 0 <= j < Clamp32(|ws|) ==> Fresh(ws).weakest <= SenseStrength(ws[j])
  {
    var k := Clamp32(|ws|);
    forall j | 0 <= j < k
      ensures Fresh(ws).value & Bit(j) != 0 <==> Sense(ws[j]).value
      ensures Fresh(ws).weakest <= SenseStrength(ws[j])
    {
      SenseBitsAt(ws[..k], j);
      assert ws[..k][j] == ws[j];
    }
  }

  /** Up to 32 wires, a second call on unchanged wires never fires and changes nothing. */
  lemma StepSettles(m: Memory, ws: seq<Option<WireState>>)
    requires |ws| <= 32
    ensures Step(Step(m, ws).0, ws) == (Step(m, ws).0, None)
  {
    var m' := Step(m, ws).0;
    ChangedIffViewDiffers(m', Fresh(ws), |ws|);
    if !(m.inConflict && AnyConflict(ws)) {
      FiresOnObservedChange(m, ws);
    }
  }

  /** Two memories with the same view behave alike: the mask stored at Hi-Z is never looked at. */
  lemma SameViewSameStep(m1: Memory, m2: Memory, ws: seq<Option<WireState>>)
    requires View(m1) == View(m2)
    ensures Step(m1, ws).1 == Step(m2, ws).1
    ensures View(Step(m1, ws).0) == View(Step(m2, ws).0)
  {
    assert m1.inConflict == m2.inConflict;
    assert (m1.weakest == HI_Z) == (m2.weakest == HI_Z);
    assert m1.weakest != HI_Z ==> m1.value == m2.value;
  }

  /**
   * `qemu_wire_multi_listen` leaves the mask uninitialised, but it starts at
   * Hi-Z, so whatever the allocator left there never affects a report.
   */
  lemma InitialValueUnobserved(v1: bv32, v2: bv32, ws: seq<Option<WireState>>)
    ensures Step(Memory(v1, HI_Z, false), ws).1 == Step(Memory(v2, HI_Z, false), ws).1
  {
    SameViewSameStep(Memory(v1, HI_Z, false), Memory(v2, HI_Z, false), ws);
  }

  /**
   * `qemu_wire_listen(w, l)` on the record level: `l` appended to a non-NULL
   * wire's listeners. This is the update `Circuit.Listen` states on its
   * `wires` field, written as a function so that the listen loop can be
   * specified by `ListenAll`.
   */
  function WithListener(ws: seq<WireState>, w: Option<WireId>, l: Listener): (r: seq<WireState>)
    requires w.Some? ==> w.value < |ws|
  {
    if w.None? then ws else ws[w.value := ws[w.value].(listeners := ws[w.value].listeners + [l])]
  }

  /**
   * `qemu_wire_unlisten(w, l)` on the record level: the last `l` removed from
   * a non-NULL wire's listeners. This is the update `Circuit.Unlisten` states
   * on its `wires` field, written as a function for `UnlistenAll`.
   */
  function WithoutListener(ws: seq<WireState>, w: Option<WireId>, l: Listener): (r: seq<WireState>)
    requires w.Some? ==> w.value < |ws|
  {
    if w.None? then ws else ws[w.value := ws[w.value].(listeners := RemoveLast(ws[w.value].listeners, l))]
  }

  /** The listen loop of `qemu_wire_multi_listen`: `l` registered on every wire of `ids`, in order. */
  function ListenAll(ws: seq<WireState>, ids: seq<Option<WireId>>, l: Listener): (r: seq<WireState>)
    requires Targets(ids, |ws|)
    ensures |r| == |ws|
    decreases |ids|
  {
    if ids == [] then ws
    else WithListener(ListenAll(ws, ids[..|ids| - 1], l), ids[|ids| - 1], l)
  }

  /** The unlisten loop of `qemu_wire_multi_unlisten`: `l` unregistered from every wire of `ids`, in order. */
  function UnlistenAll(ws: seq<WireState>, ids: seq<Option<WireId>>, l: Listener): (r: seq<WireState>)
    requires Targets(ids, |ws|)
    ensures |r| == |ws|
    decreases |ids|
  {
    if ids == [] then ws
    else WithoutListener(UnlistenAll(ws, ids[..|ids| - 1], l), ids[|ids| - 1], l)
  }

  /** How many entries of `ids` point at wire `x`. */
  function Count(ids: seq<Option<WireId>>, x: WireId): nat
    decreases |ids|
  {
    if ids == [] then 0
    else Count(ids[..|ids| - 1], x) + (if ids[|ids| - 1] == Some(x) then 1 else 0)
  }

  function Repeat<T>(x: T, k: nat): (r: seq<T>)
    ensures |r| == k
  {
    if k == 0 then [] else Repeat(x, k - 1) + [x]
  }

  lemma RepeatOneMore<T>(x: T, m: nat)
    ensures Repeat(x, m + 1) == Repeat(x, m) + [x]
  {
  }

  /** `s` after `k` removals of the last occurrence of `x`. */
  function RemoveLastTimes<T(==)>(s: seq<T>, x: T, k: nat): seq<T>
  {
    if k == 0 then s else RemoveLast(RemoveLastTimes(s, x, k - 1), x)
  }

  /** After the listen loop, each wire has gained one copy of `l` per pointer to it. */
  lemma {:induction false} ListenAllAt(ws: seq<WireState>, ids: seq<Option<WireId>>, l: Listener, x: WireId)
    requires Targets(ids, |ws|) && x < |ws|
    ensures ListenAll(ws, ids, l)[x] == ws[x].(listeners := ws[x].listeners + Repeat(l, Count(ids, x)))
    decreases |ids|
  {
    if ids != [] {
      var p := ids[..|ids| - 1];
      ListenAllAt(ws, p, l, x);
      if ids[|ids| - 1] == Some(x) {
        assert Repeat(l, Count(ids, x)) == Repeat(l, Count(p, x)) + [l];
      }
    }
  }

  /** After the unlisten loop, each wire has lost the last copy of `l` once per pointer to it. */
  lemma {:induction false} UnlistenAllAt(ws: seq<WireState>, ids: seq<Option<WireId>>, l: Listener, x: WireId)
    requires Targets(ids, |ws|) && x < |ws|
    ensures UnlistenAll(ws, ids, l)[x] == ws[x].(listeners := RemoveLastTimes(ws[x].listeners, l, Count(ids, x)))
    decreases |ids|
  {
    if ids != [] {
      var p := ids[..|ids| - 1];
      var prev := UnlistenAll(ws, p, l);
      UnlistenAllAt(ws, p, l, x);
      assert UnlistenAll(ws, ids, l) == WithoutListener(prev, ids[|ids| - 1], l);
      if ids[|ids| - 1] == Some(x) {
        assert Count(ids, x) == Count(p, x) + 1;
        assert RemoveLastTimes(ws[x].listeners, l, Count(ids, x)) == RemoveLast(prev[x].listeners, l);
      } else {
        assert Count(ids, x) == Count(p, x);
        assert UnlistenAll(ws, ids, l)[x] == prev[x];
      }
    }
  }

  /** Removing the last `x` `k` times from `s` followed by `n >= k` copies of `x` leaves `n - k` copies. */
  lemma {:induction false} RemoveRepeated<T>(s: seq<T>, x: T, n: nat, k: nat)
    requires k <= n
    ensures RemoveLastTimes(s + Repeat(x, n), x, k) == s + Repeat(x, n - k)
    decreases k
  {
    if k > 0 {
      var t := s + Repeat(x, n);
      RemoveRepeated(s, x, n, k - 1);
      var m := n - k;
      assert RemoveLastTimes(t, x, k - 1) == s + Repeat(x, n - (k - 1));
      assert n - (k - 1) == m + 1;
      assert Repeat(x, n - (k - 1)) == Repeat(x, m + 1);
      RepeatOneMore(x, m);
      assert s + Repeat(x, m + 1) == (s + Repeat(x, m)) + [x];
      RemoveLastAppended(s + Repeat(x, m), x);
    }
  }

  /** Unlistening from the wires a multi-listener listened on restores every wire's listeners. */
  lemma ListenRoundTrip(ws: seq<WireState>, ids: seq<Option<WireId>>, l: Listener)
    requires Targets(ids, |ws|)
    ensures UnlistenAll(ListenAll(ws, ids, l), ids, l) == ws
  {
    var ws1 := ListenAll(ws, ids, l);
    var ws2 := UnlistenAll(ws1, ids, l);
    forall x | 0 <= x < |ws|
      ensures ws2[x] == ws[x]
    {
      ListenAllAt(ws, ids, l, x);
      UnlistenAllAt(ws1, ids, l, x);
      RemoveRepeated(ws[x].listeners, l, Count(ids, x), Count(ids, x));
      assert ws[x].listeners + Repeat(l, 0) == ws[x].listeners;
    }
  }

  /** The `struct multi_listener` that `qemu_wire_multi_listen` allocates and returns as its token. */
  class MultiListener {
    const handler: nat
    const closure: nat
    const wires: seq<Option<WireId>>
    var value: bv32
    var weakestStrength: Strength
    var inConflict: bool
    /** The calls of the user's handler so far. */
    ghost var reports: seq<Report>

    function Remembered(): Memory
      reads this
    {
      Memory(value, weakestStrength, inConflict)
    }

    /** The fields `qemu_wire_multi_listen` sets; `garbage` is what the allocator left in `value`. */
    constructor (handler: nat, closure: nat, wires: seq<Option<WireId>>, garbage: bv32)
      ensures this.handler == handler && this.closure == closure && this.wires == wires
      ensures Remembered() == Memory(garbage, HI_Z, false) && reports == []
    {
      this.handler, this.closure, this.wires := handler, closure, wires;
      value, weakestStrength, inConflict := garbage, HI_Z, false;
      reports := [];
    }

    /** `multi_handler`, called by any of the listener's wires of circuit `c`. */
    method Handle(c: Circuit)
      requires Targets(wires, |c.wires|)
      modifies this
      ensures var ws := Snapshot(wires, c.wires);
              Remembered() == Step(old(Remembered()), ws).0 &&
              reports == old(reports) + (if Step(old(Remembered()), ws).1.Some? then [Step(old(Remembered()), ws).1.value] else [])
    {
      var ws := Snapshot(wires, c.wires);
      var conflict := ScanConflict(ws);
      if conflict && inConflict {
        return;
      }
      var mask, weakest := MultiSense(ws, |ws|);
      var now := Memory(mask, weakest, conflict);
      if Changed(Remembered(), now, |wires|) {
        weakestStrength, value, inConflict := weakest, mask, conflict;
        reports := reports + [Report(mask, weakest, |wires|)];
      }
    }
  }

  /** The loop of `qemu_wire_multi_listen`: `qemu_wire_listen(ids[i], l)` for each i in order. */
  method ListenEach(c: Circuit, ids: seq<Option<WireId>>, l: Listener)
    requires c.Valid() && Targets(ids, |c.wires|)
    modifies c
    ensures c.Valid() && c.drivers == old(c.drivers) && c.log == old(c.log)
    ensures old(c.Coherent()) ==> c.Coherent()
    ensures c.wires == ListenAll(old(c.wires), ids, l)
  {
    ghost var ws0 := c.wires;
    var i := 0;
    while i < |ids|
      invariant 0 <= i <= |ids|
      invariant c.Valid() && c.drivers == old(c.drivers) && c.log == old(c.log)
      invariant old(c.Coherent()) ==> c.Coherent()
      invariant c.wires == ListenAll(ws0, ids[..i], l)
    {
      assert ids[..i + 1][..i] == ids[..i];
      c.Listen(ids[i], l);
      i := i + 1;
    }
    assert ids[..|ids|] == ids;
  }

  /** The loop of `qemu_wire_multi_unlisten`: `qemu_wire_unlisten(ids[i], l)` for each i in order. */
  method UnlistenEach(c: Circuit, ids: seq<Option<WireId>>, l: Listener)
    requires c.Valid() && Targets(ids, |c.wires|)
    modifies c
    ensures c.Valid() && c.drivers == old(c.drivers) && c.log == old(c.log)
    ensures old(c.Coherent()) ==> c.Coherent()
    ensures c.wires == UnlistenAll(old(c.wires), ids, l)
  {
    ghost var ws0 := c.wires;
    var i := 0;
    while i < |ids|
      invariant 0 <= i <= |ids|
      invariant c.Valid() && c.drivers == old(c.drivers) && c.log == old(c.log)
      invariant old(c.Coherent()) ==> c.Coherent()
      invariant c.wires == UnlistenAll(ws0, ids[..i], l)
    {
      assert ids[..i + 1][..i] == ids[..i];
      c.Unlisten(ids[i], l);
      i := i + 1;
    }
    assert ids[..|ids|] == ids;
  }

  /**
   * `qemu_wire_multi_listen`: NULL for no wires; otherwise a new listener,
   * registered as (multi_handler, token) on every wire in order.
   */
  method MultiListen(c: Circuit, ids: seq<Option<WireId>>, handler: nat, closure: nat, garbage: bv32)
    returns (ml: MultiListener?)
    requires c.Valid() && Targets(ids, |c.wires|)
    modifies c
    ensures c.Valid() && c.drivers == old(c.drivers) && c.log == old(c.log)
    ensures old(c.Coherent()) ==> c.Coherent()
    ensures ids == [] ==> ml == null && c.wires == old(c.wires)
    ensures ids != [] ==> ml != null && fresh(ml) && ml.wires == ids && ml.handler == handler && ml.closure == closure &&
                          ml.Remembered() == Memory(garbage, HI_Z, false) && ml.reports == [] &&
                          c.wires == ListenAll(old(c.wires), ids, Listener(MultiHandler, Token(ml)))
  {
    if ids == [] {
      return null;
    }
    ml := new MultiListener(handler, closure, ids, garbage);
    ListenEach(c, ids, Listener(MultiHandler, Token(ml)));
  }

  /** `qemu_wire_multi_unlisten`: unregister (multi_handler, token) from every wire in order; NULL does nothing. */
  method MultiUnlisten(c: Circuit, ml: MultiListener?)
    requires c.Valid() && (ml != null ==> Targets(ml.wires, |c.wires|))
    modifies c
    ensures c.Valid() && c.drivers == old(c.drivers) && c.log == old(c.log)
    ensures old(c.Coherent()) ==> c.Coherent()
    ensures ml == null ==> c.wires == old(c.wires)
    ensures ml != null ==> c.wires == UnlistenAll(old(c.wires), ml.wires, Listener(MultiHandler, Token(ml)))
  {
    if ml != null {
      UnlistenEach(c, ml.wires, Listener(MultiHandler, Token(ml)));
    }
  }
}
