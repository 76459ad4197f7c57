/**
 * The runs of tests/test-wire.c, played on the arena model: what the wires
 * read after each step, and which events a drive records. Listener
 * callbacks are not run; their calls are the `Called` events of the log.
 */
module WireScenarios {
  import opened Optional
  import opened Levels
  import opened Arbitration
  import opened Wire
  import opened Sensing
  import opened MultiWire

  /** A lone driver wins unless it is Hi-Z, and is never in conflict. */
  lemma Lone(x: Drive)
    ensures Resolve([x]) == if x.strength == HI_Z then Resolution(UNDRIVEN, false) else Resolution(x, false)
  {
    if x.strength != HI_Z {
      StrictlyStrongerWins([x], 0);
    }
  }

  /** Of two drivers of different strengths the stronger wins; two Hi-Z drivers leave the wire undriven. */
  lemma Pair(x: Drive, y: Drive)
    requires x.strength != y.strength || x.strength == HI_Z
    ensures Resolve([x, y]) == if x.strength == y.strength then Resolution(UNDRIVEN, false)
                               else if x.strength > y.strength then Resolution(x, false)
                               else Resolution(y, false)
  {
    if x.strength > y.strength {
      StrictlyStrongerWins([x, y], 0);
    } else if y.strength > x.strength {
      StrictlyStrongerWins([x, y], 1);
    }
  }

  /** `qemu_free_wiredriver` of every driver of a rigged wire, the last attached first, then `qemu_free_wire(w)`. */
  method FreeRigged(c: Circuit, w: WireId, att: seq<DriverId>, ghost drives: seq<Drive>)
    requires Rigged(c, w, att, drives)
    modifies c
    ensures c.Valid() && w < |c.wires| && c.wires[w].attachments == [] && c.wires[w].listeners == []
  {
    var i := |att|;
    while i > 0
      invariant 0 <= i <= |att| && c.Valid() && |c.wires| == old(|c.wires|) && |c.drivers| == old(|c.drivers|)
    {
      i := i - 1;
      c.FreeWireDriver(Some(att[i]));
    }
    c.FreeWire(Some(w));
  }

  /** What `qemu_wire_sense` reads on a wire holding what a lone digital drive resolves to. */
  lemma ReadLone(x: WireState, a: Drive)
    requires Cached(x) == Resolve([a]) && a.mode == Digital
    ensures Sense(Some(x)) == if a.strength == HI_Z then Sensed(false, HI_Z) else Sensed(a.value != 0, a.strength)
  {
    Lone(a);
  }

  /** What `qemu_wire_sense` reads on a wire holding what two digital drives of different strengths resolve to. */
  lemma ReadPair(x: WireState, a: Drive, b: Drive)
    requires Cached(x) == Resolve([a, b]) && a.mode == Digital && b.mode == Digital
    requires a.strength != b.strength || a.strength == HI_Z
    ensures Sense(Some(x)) == if a.strength == b.strength then Sensed(false, HI_Z)
                              else if a.strength > b.strength then Sensed(a.value != 0, a.strength)
                              else Sensed(b.value != 0, b.strength)
  {
    Pair(a, b);
  }

  /**
   * Wire `w` of circuit `c` has the drivers `att` attached, in this order,
   * they drive `drives`, and every wire holds what its drivers resolve to.
   */
  ghost predicate Rigged(c: Circuit, w: WireId, att: seq<DriverId>, drives: seq<Drive>)
    reads c
  {
    c.Valid() && c.Coherent() && w < |c.wires| && c.wires[w].attachments == att &&
    c.wires[w].intrinsic == WIRE_INTRINSIC_DEFAULT && |drives| == |att| && NoDuplicates(att) &&
    forall k :: 0 <= k < |att| ==> att[k] < |c.drivers| && c.drivers[att[k]].drive == drives[k]
  }

  /** A rigged wire holds what the drives of its drivers resolve to. */
  lemma RiggedHolds(c: Circuit, w: WireId, att: seq<DriverId>, drives: seq<Drive>)
    requires Rigged(c, w, att, drives)
    ensures Cached(c.wires[w]) == Resolve(drives)
  {
    assert CoherentAt(c.wires, c.drivers, w);
    assert DrivesOf(att, c.drivers) == drives;
  }

  /** A new circuit with one new wire, nothing attached. */
  method NewWire() returns (c: Circuit, w: WireId)
    ensures fresh(c) && Rigged(c, w, [], []) && c.wires == [NEW_WIRE] && w == 0 && c.log == []
  {
    c := new Circuit();
    w := c.AllocateWire();
  }

  /** `qemu_allocate_wiredriver(w)`: one more, Hi-Z, driver at the end of the wire's list. */
  method AddDriver(c: Circuit, w: WireId, ghost att: seq<DriverId>, ghost drives: seq<Drive>) returns (d: DriverId)
    requires Rigged(c, w, att, drives)
    modifies c
    ensures Rigged(c, w, att + [d], drives + [UNDRIVEN])
    ensures |c.wires| == old(|c.wires|) && c.wires[w].listeners == old(c.wires[w].listeners) && c.log == old(c.log)
  {
    d := c.AllocateWireDriver(Some(w));
    assert forall k :: 0 <= k < |att| ==> att[k] < d;
  }

  /** `qemu_wire_drive*` on the k-th driver of a rigged wire. */
  method DriveOn(c: Circuit, w: WireId, att: seq<DriverId>, ghost drives: seq<Drive>, k: nat, v: Drive)
    returns (x: WireState)
    requires Rigged(c, w, att, drives) && k < |att|
    modifies c
    ensures Rigged(c, w, att, drives[k := v]) && x == c.wires[w]
    ensures Cached(x) == Resolve(drives[k := v])
    ensures |c.wires| == old(|c.wires|) && x.listeners == old(c.wires[w].listeners)
    ensures drives[k] != v ==>
              |old(c.log)| <= |c.log| && c.log[..|old(c.log)|] == old(c.log) &&
              BatchEvents(old(c.wires), old(c.drivers)[att[k] := old(c.drivers[att[k]]).(drive := v, changed := true)],
                          c.wires, c.log[|old(c.log)|..])
  {
    c.DriveOne(Some(att[k]), v);
    forall j | 0 <= j < |att|
      ensures c.drivers[att[j]].drive == drives[k := v][j]
    {
      if j != k {
        assert att[j] != att[k];
      }
    }
    RiggedHolds(c, w, att, drives[k := v]);
    x := c.wires[w];
  }

  /** `qemu_allocate_wiredriver(w)` on a wire with nothing attached. */
  method AddFirst(c: Circuit, w: WireId) returns (d: DriverId)
    requires Rigged(c, w, [], [])
    modifies c
    ensures Rigged(c, w, [d], [UNDRIVEN])
    ensures |c.wires| == old(|c.wires|) && c.wires[w].listeners == old(c.wires[w].listeners) && c.log == old(c.log)
  {
    d := AddDriver(c, w, [], []);
  }

  /** `qemu_allocate_wiredriver(w)` on a wire with one driver attached. */
  method AddSecond(c: Circuit, w: WireId, d: DriverId, ghost a: Drive) returns (e: DriverId)
    requires Rigged(c, w, [d], [a])
    modifies c
    ensures Rigged(c, w, [d, e], [a, UNDRIVEN])
    ensures |c.wires| == old(|c.wires|) && c.wires[w].listeners == old(c.wires[w].listeners) && c.log == old(c.log)
  {
    e := AddDriver(c, w, [d], [a]);
  }

  /** Drive the only driver of a wire; `x` is the wire afterwards. */
  method DriveLone(c: Circuit, w: WireId, d: DriverId, ghost a: Drive, v: Drive) returns (x: WireState)
    requires Rigged(c, w, [d], [a])
    modifies c
    ensures Rigged(c, w, [d], [v]) && x == c.wires[w] && Cached(x) == Resolve([v])
    ensures |c.wires| == old(|c.wires|) && x.listeners == old(c.wires[w].listeners)
  {
    assert [a][0 := v] == [v];
    x := DriveOn(c, w, [d], [a], 0, v);
  }

  /** Drive the first of the two drivers of a wire. */
  method DriveFirst(c: Circuit, w: WireId, d: DriverId, e: DriverId, ghost a: Drive, ghost b: Drive, v: Drive)
    returns (x: WireState)
    requires Rigged(c, w, [d, e], [a, b])
    modifies c
    ensures Rigged(c, w, [d, e], [v, b]) && x == c.wires[w] && Cached(x) == Resolve([v, b])
  {
    assert [a, b][0 := v] == [v, b];
    x := DriveOn(c, w, [d, e], [a, b], 0, v);
  }

  /** Drive the second of the two drivers of a wire. */
  method DriveSecond(c: Circuit, w: WireId, d: DriverId, e: DriverId, ghost a: Drive, ghost b: Drive, v: Drive)
    returns (x: WireState)
    requires Rigged(c, w, [d, e], [a, b])
    modifies c
    ensures Rigged(c, w, [d, e], [a, v]) && x == c.wires[w] && Cached(x) == Resolve([a, v])
  {
    assert [a, b][1 := v] == [a, v];
    x := DriveOn(c, w, [d, e], [a, b], 1, v);
  }

  /** test_wire_digital, first half: one driver drives true, then goes Hi-Z. */
  method WireDigitalAlone() returns (c: Circuit, w: WireId, d: DriverId, readings: seq<Sensed<bool>>)
    ensures fresh(c) && Rigged(c, w, [d], [DigitalDrive(HI_Z, true)])
    ensures readings == [Sensed(false, HI_Z), Sensed(true, PULL), Sensed(false, HI_Z)]
  {
    c, w := NewWire();
    var r1 := Sense(c.Wire(Some(w)));
    d := AddFirst(c, w);
    var x := DriveLone(c, w, d, UNDRIVEN, DigitalDrive(PULL, true));
    ReadLone(x, DigitalDrive(PULL, true));
    var r2 := Sense(Some(x));
    x := DriveLone(c, w, d, DigitalDrive(PULL, true), DigitalDrive(HI_Z, true));
    ReadLone(x, DigitalDrive(HI_Z, true));
    var r3 := Sense(Some(x));
    readings := [r1, r2, r3];
  }

  /**
   * test_wire_digital, second half: a second driver drives true; the first,
   * Hi-Z so far, drives false weaker and then stronger than it.
   */
  method WireDigitalPair(c: Circuit, w: WireId, d: DriverId) returns (readings: seq<Sensed<bool>>)
    requires Rigged(c, w, [d], [DigitalDrive(HI_Z, true)])
    modifies c
    ensures readings == [Sensed(true, PULL), Sensed(true, PULL), Sensed(false, STRONG)]
  {
    var d2 := AddSecond(c, w, d, DigitalDrive(HI_Z, true));
    var x := DriveSecond(c, w, d, d2, DigitalDrive(HI_Z, true), UNDRIVEN, DigitalDrive(PULL, true));
    ReadPair(x, DigitalDrive(HI_Z, true), DigitalDrive(PULL, true));
    var r4 := Sense(Some(x));
    assert r4 == Sensed(true, PULL);
    x := DriveFirst(c, w, d, d2, DigitalDrive(HI_Z, true), DigitalDrive(PULL, true), DigitalDrive(WEAK, false));
    ReadPair(x, DigitalDrive(WEAK, false), DigitalDrive(PULL, true));
    var r5 := Sense(Some(x));
    assert r5 == Sensed(true, PULL);
    x := DriveFirst(c, w, d, d2, DigitalDrive(WEAK, false), DigitalDrive(PULL, true), DigitalDrive(STRONG, false));
    ReadPair(x, DigitalDrive(STRONG, false), DigitalDrive(PULL, true));
    var r6 := Sense(Some(x));
    assert r6 == Sensed(false, STRONG);
    readings := [r4, r5, r6];
    FreeRigged(c, w, [d, d2], [DigitalDrive(STRONG, false), DigitalDrive(PULL, true)]);
  }

  /**
   * test_wire_digital: the `qemu_wire_sense` readings after each step, then
   * both drivers and the wire freed.
   */
  method WireDigital() returns (readings: seq<Sensed<bool>>)
    ensures readings == [Sensed(false, HI_Z), Sensed(true, PULL), Sensed(false, HI_Z),
                         Sensed(true, PULL), Sensed(true, PULL), Sensed(false, STRONG)]
  {
    var c, w, d, first := WireDigitalAlone();
    var second := WireDigitalPair(c, w, d);
    readings := first + second;
  }

  /** test_wire_analog: an analogue drive reads back as itself; driven Hi-Z the wire is Hi-Z. */
  method WireAnalog() returns (reading: Sensed<int>, hiZ: bool)
    ensures reading == Sensed(12345, PULL) && hiZ
  {
    var c, w := NewWire();
    var d := AddFirst(c, w);
    var x := DriveLone(c, w, d, UNDRIVEN, Drive(PULL, Analogue, 12345));
    Lone(Drive(PULL, Analogue, 12345));
    reading := SenseA(Some(x));
    x := DriveLone(c, w, d, Drive(PULL, Analogue, 12345), Drive(HI_Z, Analogue, 67890));
    Lone(Drive(HI_Z, Analogue, 67890));
    hiZ := IsHiZ(Some(x));
    FreeRigged(c, w, [d], [Drive(HI_Z, Analogue, 67890)]);
  }

  /** Two equally strong drives that disagree put the wire in conflict. */
  lemma Clash(a: Drive, b: Drive)
    requires a.strength == b.strength && a.strength > HI_Z && Disagree(a, b)
    ensures Resolve([a, b]).conflict
  {
    var ds := [a, b];
    assert Strongest(ds) == a.strength by {
      assert ds[1..] == [b] && [b][1..] == [];
    }
    ConflictIffTwoDisagree(ds);
    assert ds[0].strength == ds[1].strength == Strongest(ds) > HI_Z && Disagree(ds[0], ds[1]);
  }

  /**
   * test_wire_mixed, first half: an analogue driver alone, then a digital
   * driver of the same strength driving false against it.
   */
  method WireMixedClash() returns (c: Circuit, w: WireId, da: DriverId, dd: DriverId,
                                   conflicts: seq<bool>, analogue: int, digital: bool)
    ensures fresh(c) && Rigged(c, w, [da, dd], [Drive(PULL, Analogue, 12345), DigitalDrive(PULL, false)])
    ensures conflicts == [false, true] && analogue == 12345 && !digital
  {
    c, w := NewWire();
    da := AddFirst(c, w);
    dd := AddSecond(c, w, da, UNDRIVEN);
    var a := Drive(PULL, Analogue, 12345);
    var x := DriveFirst(c, w, da, dd, UNDRIVEN, UNDRIVEN, a);
    Pair(a, UNDRIVEN);
    var c1 := SenseConflicted(Some(x));
    analogue := SenseA(Some(x)).value;
    digital := Sense(Some(x)).value;
    x := DriveSecond(c, w, da, dd, a, UNDRIVEN, DigitalDrive(PULL, false));
    Clash(a, DigitalDrive(PULL, false));
    conflicts := [c1, SenseConflicted(Some(x))];
  }

  /**
   * test_wire_mixed, second half: the analogue driver lets go, so the digital
   * false alone remains; then the digital driver drives true, which reads as
   * the intrinsic value. The closing frees go through `FreeRigged`, the
   * digital driver first; the test frees the analogue driver first, which no
   * listener could tell apart, since the wire has none.
   */
  method WireMixedRelease(c: Circuit, w: WireId, da: DriverId, dd: DriverId)
    returns (conflicts: seq<bool>, analogue: seq<int>, digital: seq<bool>)
    requires Rigged(c, w, [da, dd], [Drive(PULL, Analogue, 12345), DigitalDrive(PULL, false)])
    modifies c
    ensures conflicts == [false, false] && analogue == [0, WIRE_INTRINSIC_DEFAULT] && digital == [false, true]
  {
    var z := DigitalDrive(HI_Z, false);
    var x := DriveFirst(c, w, da, dd, Drive(PULL, Analogue, 12345), DigitalDrive(PULL, false), z);
    Pair(z, DigitalDrive(PULL, false));
    var c3, a2, d2 := SenseConflicted(Some(x)), SenseA(Some(x)).value, Sense(Some(x)).value;
    assert !c3 && a2 == 0 && !d2;
    x := DriveSecond(c, w, da, dd, z, DigitalDrive(PULL, false), DigitalDrive(PULL, true));
    Pair(z, DigitalDrive(PULL, true));
    var c4, a3, d3 := SenseConflicted(Some(x)), SenseA(Some(x)).value, Sense(Some(x)).value;
    assert !c4 && a3 == WIRE_INTRINSIC_DEFAULT && d3;
    conflicts, analogue, digital := [c3, c4], [a2, a3], [d2, d3];
    FreeRigged(c, w, [da, dd], [z, DigitalDrive(PULL, true)]);
  }

  /** test_wire_mixed: conflict flags and analogue and digital readings along the run. */
  method WireMixed() returns (conflicts: seq<bool>, analogue: seq<int>, digital: seq<bool>)
    ensures conflicts == [false, true, false, false]
    ensures analogue == [12345, 0, WIRE_INTRINSIC_DEFAULT] && digital == [false, false, true]
  {
    var c, w, da, dd, cs, a1, d1 := WireMixedClash();
    var cs', as', ds' := WireMixedRelease(c, w, da, dd);
    conflicts, analogue, digital := cs + cs', [a1] + as', [d1] + ds';
  }

  /** `qemu_wire_listen(w, l)` on the only wire of a circuit, with nothing attached yet. */
  method ListenOn(c: Circuit, w: WireId, l: Listener)
    requires Rigged(c, w, [], []) && |c.wires| == 1 && c.wires[w].listeners == []
    modifies c
    ensures Rigged(c, w, [], []) && |c.wires| == 1 && c.wires[w].listeners == [l] && c.log == old(c.log)
  {
    c.Listen(Some(w), l);
  }

  /** Three entries of a sequence without duplicates cannot all be one of two values. */
  lemma ThreeDistinct<T>(s: seq<T>, u: T, k: T)
    requires |s| > 2 && NoDuplicates(s)
    ensures !((s[0] == u || s[0] == k) && (s[1] == u || s[1] == k) && (s[2] == u || s[2] == k))
  {
    assert s[0] != s[1] && s[0] != s[2] && s[1] != s[2];
  }

  /**
   * On a circuit of one wire with one listener, a drive that marks the wire
   * and changes what it shows records the re-resolution, then one call.
   */
  lemma OneWireEvents(ws0: seq<WireState>, ds1: seq<DriverState>, ws: seq<WireState>, seg: seq<Event>, l: Listener)
    requires |ws0| == 1 && |ws| == 1 && ws[0].listeners == [l]
    requires BatchEvents(ws0, ds1, ws, seg) && Marked(ds1, 0)
    requires ObservablyChanged(Cached(ws0[0]), Cached(ws[0]))
    ensures seg == [Updated(0), Called(0, 0, l)]
  {
    var u, k := Updated(0), Called(0, 0, l);
    assert u in seg;
    assert k in seg by {
      assert ws[0].listeners[0] == l;
    }
    forall j | 0 <= j < |seg| ensures seg[j] == u || seg[j] == k {
      if seg[j].Called? {
        assert CallOf(ws, seg[j]);
      }
    }
    if |seg| > 2 {
      ThreeDistinct(seg, u, k);
      assert false;
    }
    var iu :| 0 <= iu < |seg| && seg[iu] == u;
    var ik :| 0 <= ik < |seg| && seg[ik] == k;
    assert iu < ik;
  }

  /** The log after a drive of driver `d`, on the only wire `w`, that changes what `w` shows. */
  lemma HeardOnce(ws0: seq<WireState>, ds0: seq<DriverState>, ws: seq<WireState>, log0: seq<Event>, log: seq<Event>,
                  d: DriverId, v: Drive, l: Listener, w: WireId)
    requires |ws0| == 1 && |ws| == 1 && w < 1 && ws[w].listeners == [l] && d < |ds0| && w in ds0[d].wires
    requires |log0| <= |log| && log[..|log0|] == log0
    requires BatchEvents(ws0, ds0[d := ds0[d].(drive := v, changed := true)], ws, log[|log0|..])
    requires ObservablyChanged(Cached(ws0[w]), Cached(ws[w]))
    ensures log == log0 + [Updated(w), Called(w, 0, l)]
  {
    var ds1 := ds0[d := ds0[d].(drive := v, changed := true)];
    assert ds1[d].changed && w in ds1[d].wires;
    OneWireEvents(ws0, ds1, ws, log[|log0|..], l);
    assert log == log[..|log0|] + log[|log0|..];
  }

  /**
   * Drive the first of the two drivers of the only wire, whose one listener
   * is `l`: a change of what the wire shows is re-resolved, then heard once.
   */
  method DriveHeard(c: Circuit, w: WireId, d: DriverId, e: DriverId, l: Listener, ghost a: Drive, ghost b: Drive, v: Drive)
    returns (x: WireState)
    requires Rigged(c, w, [d, e], [a, b]) && |c.wires| == 1 && c.wires[w].listeners == [l]
    requires a != v && ObservablyChanged(Resolve([a, b]), Resolve([v, b]))
    modifies c
    ensures Rigged(c, w, [d, e], [v, b]) && |c.wires| == 1 && c.wires[w].listeners == [l]
    ensures x == c.wires[w] && Cached(x) == Resolve([v, b])
    ensures c.log == old(c.log) + [Updated(w), Called(w, 0, l)]
  {
    assert [a, b][0 := v] == [v, b] && [a, b][0] == a && [d, e][0] == d;
    RiggedHolds(c, w, [d, e], [a, b]);
    AttachedBothWays(c.wires, c.drivers, w, d);
    ghost var ws0, ds0, log0 := c.wires, c.drivers, c.log;
    x := DriveOn(c, w, [d, e], [a, b], 0, v);
    HeardOnce(ws0, ds0, c.wires, log0, c.log, [d, e][0], v, l, w);
  }

  /** test_wire_listen's setup: one wire with listener `l`, then two drivers attached. */
  method ListenSetup(l: Listener) returns (c: Circuit, w: WireId, d: DriverId, e: DriverId)
    ensures fresh(c) && Rigged(c, w, [d, e], [UNDRIVEN, UNDRIVEN]) && w == 0
    ensures |c.wires| == 1 && c.wires[w].listeners == [l] && c.log == []
  {
    c, w := NewWire();
    ListenOn(c, w, l);
    d := AddFirst(c, w);
    e := AddSecond(c, w, d, UNDRIVEN);
  }

  /**
   * test_wire_listen: the listener of a wire with two drivers is called once
   * per drive of the first driver to true, to false and to Hi-Z, and reads
   * `1`, `0` and Hi-Z ("10z").
   */
  method WireListen(l: Listener) returns (ghost events: seq<Event>, heard: seq<Sensed<bool>>)
    ensures events == [Updated(0), Called(0, 0, l)] + [Updated(0), Called(0, 0, l)] + [Updated(0), Called(0, 0, l)]
    ensures heard == [Sensed(true, PULL), Sensed(false, PULL), Sensed(false, HI_Z)]
  {
    var c, w, d, e := ListenSetup(l);
    ghost var p := [Updated(0), Called(0, 0, l)];
    Pair(UNDRIVEN, UNDRIVEN);
    Pair(DigitalDrive(PULL, true), UNDRIVEN);
    var x := DriveHeard(c, w, d, e, l, UNDRIVEN, UNDRIVEN, DigitalDrive(PULL, true));
    assert c.log == p;
    ReadPair(x, DigitalDrive(PULL, true), UNDRIVEN);
    var h1 := Sense(Some(x));
    Pair(DigitalDrive(PULL, false), UNDRIVEN);
    x := DriveHeard(c, w, d, e, l, DigitalDrive(PULL, true), UNDRIVEN, DigitalDrive(PULL, false));
    assert c.log == p + p;
    ReadPair(x, DigitalDrive(PULL, false), UNDRIVEN);
    var h2 := Sense(Some(x));
    Pair(DigitalDrive(HI_Z, false), UNDRIVEN);
    x := DriveHeard(c, w, d, e, l, DigitalDrive(PULL, false), UNDRIVEN, DigitalDrive(HI_Z, false));
    assert c.log == p + p + p;
    ReadPair(x, DigitalDrive(HI_Z, false), UNDRIVEN);
    var h3 := Sense(Some(x));
    events, heard := c.log, [h1, h2, h3];
  }

  /** A new circuit with one new wire and one new driver attached to nothing, which then drives a 1. */
  method DrivenApart() returns (c: Circuit, w: WireId, d: DriverId)
    ensures fresh(c) && c.Valid() && c.Coherent() && w == 0 && d == 0
    ensures c.wires == [NEW_WIRE] && c.drivers == [NEW_DRIVER.(drive := DigitalDrive(PULL, true))]
  {
    c := new Circuit();
    w := c.AllocateWire();
    d := c.AllocateWireDriver(None);
    c.DriveOne(Some(d), DigitalDrive(PULL, true));
    assert c.drivers[0] == NEW_DRIVER.(drive := DigitalDrive(PULL, true));
    assert c.wires[0] == NEW_WIRE;
  }

  /**
   * `qemu_wire_attach` as written, on a driver that already drives a 1:
   * the wire keeps the level it had, so it reads Hi-Z although what its
   * only driver drives resolves to a 1.
   */
  method AttachDrivenAsWritten() returns (reading: Sensed<bool>, resolved: Resolution)
    ensures reading == Sensed(false, HI_Z)
    ensures resolved == Resolution(DigitalDrive(PULL, true), false)
  {
    var c, w, d := DrivenApart();
    c.Attach(Some(w), d);
    assert c.wires[w] == NEW_WIRE.(attachments := [d]);
    assert DrivesOf([d], c.drivers) == [DigitalDrive(PULL, true)];
    reading := Sense(c.Wire(Some(w)));
    resolved := Resolve(DrivesOf(c.wires[w].attachments, c.drivers));
    Lone(DigitalDrive(PULL, true));
  }

  /** A wire whose only driver drives a digital `a`, and which holds what it resolves to, reads `a`. */
  lemma OnlyDriver(x: WireState, ds: seq<DriverState>, d: DriverId, a: Drive)
    requires x.attachments == [d] && d < |ds| && ds[d].drive == a && a.mode == Digital && a.strength > HI_Z
    requires Cached(x) == Resolve(DrivesOf(x.attachments, ds))
    ensures Resolve(DrivesOf(x.attachments, ds)) == Resolution(a, false)
    ensures Sense(Some(x)) == Sensed(a.value != 0, a.strength)
  {
    assert DrivesOf([d], ds) == [a];
    Lone(a);
  }

  /** The same run with the attachment re-resolved: the wire reads the 1 its driver drives. */
  method AttachDrivenResolved() returns (reading: Sensed<bool>, resolved: Resolution)
    ensures reading == Sensed(true, PULL)
    ensures resolved == Resolution(DigitalDrive(PULL, true), false)
  {
    var c, w, d := DrivenApart();
    c.AttachResolved(Some(w), d);
    var x := c.wires[w];
    resolved := Resolve(DrivesOf(x.attachments, c.drivers));
    OnlyDriver(x, c.drivers, d, DigitalDrive(PULL, true));
    reading := Sense(Some(x));
  }

  /**
   * test_wire_null: every operation handed a NULL wire or driver does
   * nothing, and a multi-listener on no wires is NULL.
   */
  method WireNull(l: Listener) returns (c: Circuit, token: MultiListener?)
    ensures fresh(c) && c.wires == [NEW_WIRE] && c.drivers == [NEW_DRIVER] && c.log == [] && token == null
  {
    c := new Circuit();
    var w := c.AllocateWire();
    var d := c.AllocateWireDriver(None);
    c.FreeWireDriver(None);
    c.FreeWire(None);
    c.Attach(None, d);
    c.Detach(None, d);
    c.Listen(None, l);
    c.Unlisten(None, l);
    token := MultiListen(c, [], 0, 0, 0);
    MultiUnlisten(c, null);
  }
}
