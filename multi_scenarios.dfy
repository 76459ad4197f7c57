/**
 * The run of test_wire_multi in tests/test-wire.c: two wires, driver 1 on
 * both and driver 2 on wire 1 only, each wire with its own recorder and one
 * multi-listener over both. The wires are taken as each batch leaves them
 * (every wire holding what its drivers resolve to), and the listeners'
 * handlers are applied in the order the batch notifies them.
 */
module MultiScenarios {
  import opened Optional
  import opened Levels
  import opened Arbitration
  import opened Wire
  import opened Sensing
  import opened MultiWire
  import opened WireScenarios

  /** Driver 1 in batch #1: a weak 1. */
  const WEAK_ONE: Drive := DigitalDrive(WEAK, true)
  /** Driver 2 in batch #1: a strong 0. */
  const STRONG_ZERO: Drive := DigitalDrive(STRONG, false)
  /** Driver 2 in batch #3: a 1 at the default strength. */
  const DEFAULT_ONE: Drive := DigitalDrive(STRENGTH_DEFAULT, true)

  /** A wire with the default intrinsic value holding what `drives` resolve to. */
  function Held(drives: seq<Drive>): (x: WireState)
    ensures Cached(x) == Resolve(drives) && x.intrinsic == WIRE_INTRINSIC_DEFAULT
  {
    var r := Resolve(drives);
    NEW_WIRE.(level := r.level, isConflict := r.conflict)
  }

  /** Wire 0 (driver 1) and wire 1 (drivers 1 and 2) when driver 1 drives `a` and driver 2 drives `b`. */
  function Rig(a: Drive, b: Drive): seq<Option<WireState>>
  {
    [Some(Held([a])), Some(Held([a, b]))]
  }

  /**
   * What each wire resolves to and shows after each batch: batch #1 leaves
   * a weak 1 and a strong 0, `qemu_wire_drive_z(driver2)` then hands wire 1
   * to the weak 1, and batch #3 leaves wire 0 Hi-Z and wire 1 at a default 1.
   */
  lemma MultiLevels()
    ensures Resolve([UNDRIVEN]) == Resolution(UNDRIVEN, false)
    ensures Resolve([UNDRIVEN, UNDRIVEN]) == Resolution(UNDRIVEN, false)
    ensures Resolve([WEAK_ONE]) == Resolution(WEAK_ONE, false)
    ensures Resolve([WEAK_ONE, STRONG_ZERO]) == Resolution(STRONG_ZERO, false)
    ensures Resolve([WEAK_ONE, UNDRIVEN]) == Resolution(WEAK_ONE, false)
    ensures Resolve([UNDRIVEN, DEFAULT_ONE]) == Resolution(DEFAULT_ONE, false)
  {
    Lone(UNDRIVEN);
    Pair(UNDRIVEN, UNDRIVEN);
    Lone(WEAK_ONE);
    Pair(WEAK_ONE, STRONG_ZERO);
    Pair(WEAK_ONE, UNDRIVEN);
    Pair(UNDRIVEN, DEFAULT_ONE);
  }

  /**
   * Which wires' views change, and so which wires call their listeners:
   * both in batch #1, wire 1 on `qemu_wire_drive_z`, and only wire 0 in
   * batch #3 (wire 1 goes from a weak 1 to a default 1, which no reader can
   * tell apart by value).
   */
  lemma MultiChanges()
    ensures ObservablyChanged(Resolve([UNDRIVEN]), Resolve([WEAK_ONE]))
    ensures ObservablyChanged(Resolve([UNDRIVEN, UNDRIVEN]), Resolve([WEAK_ONE, STRONG_ZERO]))
    ensures ObservablyChanged(Resolve([WEAK_ONE, STRONG_ZERO]), Resolve([WEAK_ONE, UNDRIVEN]))
    ensures ObservablyChanged(Resolve([WEAK_ONE]), Resolve([UNDRIVEN]))
    ensures !ObservablyChanged(Resolve([WEAK_ONE, UNDRIVEN]), Resolve([UNDRIVEN, DEFAULT_ONE]))
  {
    MultiLevels();
  }

  /** The three states the test reads: after batch #1, after `qemu_wire_drive_z(driver2)`, after batch #3. */
  const AFTER_FIRST := Rig(WEAK_ONE, STRONG_ZERO)
  const AFTER_DRIVE_Z := Rig(WEAK_ONE, UNDRIVEN)
  const AFTER_THIRD := Rig(UNDRIVEN, DEFAULT_ONE)

  /** What a read of both wires sees: each wire's reading, the mask, the weakest strength, and no conflict. */
  ghost predicate Reads(s: seq<Option<WireState>>, r0: Sensed<bool>, r1: Sensed<bool>, mask: bv32, weakest: Strength)
  {
    |s| == 2 && Sense(s[0]) == r0 && Sense(s[1]) == r1 &&
    SenseBits(s) == mask && Weakest(s) == weakest && !AnyConflict(s) &&
    Fresh(s) == Memory(mask, weakest, false)
  }

  /** The two readings decide the mask, the weakest strength and, without a conflict, the memory a call computes. */
  lemma ReadsOf(s: seq<Option<WireState>>)
    requires |s| == 2 && !SenseConflicted(s[0]) && !SenseConflicted(s[1])
    ensures Reads(s, Sense(s[0]), Sense(s[1]),
                  (if Sense(s[0]).value then 1 else 0) | (if Sense(s[1]).value then 2 else 0),
                  MinStrength(SenseStrength(s[0]), SenseStrength(s[1])))
  {
    assert s[..2] == s && s[..1] == [s[0]] && [s[0]][..0] == [];
    assert Bit(0) == 1 && Bit(1) == 2;
    assert SenseBits(s[..1]) == if Sense(s[0]).value then 1 else 0;
  }

  /** Batch #1: wire 0 reads a weak 1, wire 1 a strong 0; mask 0b01, weakest weak. */
  lemma ReadsAfterFirst()
    ensures Reads(AFTER_FIRST, Sensed(true, WEAK), Sensed(false, STRONG), 1, WEAK)
  {
    MultiLevels();
    ReadsOf(AFTER_FIRST);
  }

  /** After `qemu_wire_drive_z(driver2)`: both wires read a weak 1; mask 0b11. */
  lemma ReadsAfterDriveZ()
    ensures Reads(AFTER_DRIVE_Z, Sensed(true, WEAK), Sensed(true, WEAK), 3, WEAK)
  {
    MultiLevels();
    ReadsOf(AFTER_DRIVE_Z);
  }

  /** Batch #3: wire 0 is Hi-Z, wire 1 reads a default 1; mask 0b10, weakest Hi-Z. */
  lemma ReadsAfterThird()
    ensures Reads(AFTER_THIRD, Sensed(false, HI_Z), Sensed(true, PULL), 2, HI_Z)
  {
    MultiLevels();
    ReadsOf(AFTER_THIRD);
  }

  /**
   * The multi-handler's calls: it reports on the first call after batch #1
   * whatever the allocator left in its mask, stays silent on the second,
   * and reports once after `qemu_wire_drive_z(driver2)` and once after batch #3.
   */
  lemma MultiReports(garbage: bv32)
    ensures Step(Memory(garbage, HI_Z, false), AFTER_FIRST) == (Memory(1, WEAK, false), Some(Report(1, WEAK, 2)))
    ensures Step(Memory(1, WEAK, false), AFTER_FIRST) == (Memory(1, WEAK, false), None)
    ensures Step(Memory(1, WEAK, false), AFTER_DRIVE_Z) == (Memory(3, WEAK, false), Some(Report(3, WEAK, 2)))
    ensures Step(Memory(3, WEAK, false), AFTER_THIRD) == (Memory(2, HI_Z, false), Some(Report(2, HI_Z, 2)))
  {
    ReadsAfterFirst();
    ReadsAfterDriveZ();
    ReadsAfterThird();
  }

  /**
   * test_wire_multi. `garbage` is what the allocator left in the
   * multi-listener's mask. `masks` and `weakest` are what
   * `qemu_wire_multi_sense` returns after each step; `heard0` and `heard1`
   * are what the recorders on wire 0 and wire 1 read when called
   * ("1wz" and "01w"); `reports` are the multi-handler's calls in order,
   * `None` where it stays silent ("<01>w<11>w<1z>z").
   */
  method WireMulti(garbage: bv32)
    returns (masks: seq<bv32>, weakest: seq<Strength>, heard0: seq<Sensed<bool>>, heard1: seq<Sensed<bool>>,
             reports: seq<Option<Report>>)
    ensures masks == [1, 3, 2] && weakest == [WEAK, WEAK, HI_Z]
    ensures heard0 == [Sensed(true, WEAK), Sensed(false, HI_Z)]
    ensures heard1 == [Sensed(false, STRONG), Sensed(true, WEAK)]
    ensures reports == [Some(Report(1, WEAK, 2)), None, Some(Report(3, WEAK, 2)), Some(Report(2, HI_Z, 2))]
  {
    ReadsAfterFirst();
    ReadsAfterDriveZ();
    ReadsAfterThird();
    MultiReports(garbage);
    var m := Memory(garbage, HI_Z, false);
    // batch #1: wire 0 and wire 1 both change; each calls its recorder and the multi-listener
    var v1, w1 := MultiSense(AFTER_FIRST, 2);
    var r1, r2;
    m, r1 := Step(m, AFTER_FIRST).0, Step(m, AFTER_FIRST).1;
    m, r2 := Step(m, AFTER_FIRST).0, Step(m, AFTER_FIRST).1;
    var a1, b1 := Sense(AFTER_FIRST[0]), Sense(AFTER_FIRST[1]);
    // qemu_wire_drive_z(driver2): only wire 1 changes
    var v2, w2 := MultiSense(AFTER_DRIVE_Z, 2);
    var r3;
    m, r3 := Step(m, AFTER_DRIVE_Z).0, Step(m, AFTER_DRIVE_Z).1;
    var b2 := Sense(AFTER_DRIVE_Z[1]);
    // batch #3: only wire 0 changes
    var v3, w3 := MultiSense(AFTER_THIRD, 2);
    var r4;
    m, r4 := Step(m, AFTER_THIRD).0, Step(m, AFTER_THIRD).1;
    var a3 := Sense(AFTER_THIRD[0]);
    masks, weakest := [v1, v2, v3], [w1, w2, w3];
    heard0, heard1 := [a1, a3], [b1, b2];
    reports := [r1, r2, r3, r4];
  }
}
