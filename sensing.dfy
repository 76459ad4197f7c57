/**
 * Reading a wire (hw/core/wire.c, `qemu_wire_sense` and its relatives):
 * every read looks at the level the last `wire_update` cached, never at the
 * drivers, and a NULL wire reads as an undriven digital false.
 */
module Sensing {
  import opened Optional
  import opened Levels
  import opened Arbitration
  import opened Wire

  /** What a read returns: the value, and the strength written through `strength_return`. */
  datatype Sensed<T> = Sensed(value: T, strength: Strength)

  /** C's `a / 2` on `int`: the quotient truncated toward zero. */
  function HalfTowardZero(a: int): (h: int)
    ensures a >= 0 ==> 0 <= a - 2 * h <= 1
    ensures a < 0 ==> -1 <= a - 2 * h <= 0
  {
    if a >= 0 then a / 2 else -((-a) / 2)
  }

  /** `qemu_wire_sense_strength`: the cached strength; Hi-Z for a NULL wire. */
  function SenseStrength(w: Option<WireState>): (s: Strength)
    ensures w.None? ==> s == HI_Z
    ensures w.Some? ==> s == w.value.level.strength
  {
    if w.None? then HI_Z else w.value.level.strength
  }

  /** `qemu_wire_sense_conflicted`: the cached conflict flag; false for a NULL wire. */
  function SenseConflicted(w: Option<WireState>): (c: bool)
    ensures c <==> w.Some? && w.value.isConflict
  {
    w.Some? && w.value.isConflict
  }

  /**
   * On a coherent circuit the cached reads report the drivers: the strength
   * is that of the strongest attached drive (Hi-Z when none drives), and the
   * wire reads as conflicted exactly when two equally strong, strongest
   * drives disagree.
   */
  lemma SenseReadsDrivers(ws: seq<WireState>, ds: seq<DriverState>, w: WireId)
    requires InRange(ws, ds) && AllCoherent(ws, ds) && w < |ws|
    ensures SenseStrength(Some(ws[w])) == Strongest(DrivesOf(ws[w].attachments, ds))
    ensures SenseConflicted(Some(ws[w])) <==>
              exists i, j :: 0 <= i < |ws[w].attachments| && 0 <= j < |ws[w].attachments| &&
                             DrivesOf(ws[w].attachments, ds)[i].strength == DrivesOf(ws[w].attachments, ds)[j].strength ==
                               Strongest(DrivesOf(ws[w].attachments, ds)) > HI_Z &&
                             Disagree(DrivesOf(ws[w].attachments, ds)[i], DrivesOf(ws[w].attachments, ds)[j])
  {
    assert CoherentAt(ws, ds, w);
    ConflictIffTwoDisagree(DrivesOf(ws[w].attachments, ds));
  }

  /**
   * `qemu_wire_sense`: the level read as a boolean. A digital level is true
   * when non-zero; an analogue level is true from half the intrinsic value up.
   */
  function Sense(w: Option<WireState>): (r: Sensed<bool>)
    ensures r.strength == SenseStrength(w)
    ensures w.None? ==> !r.value
    ensures w.Some? && w.value.level.mode == Digital ==> (r.value <==> w.value.level.value != 0)
    ensures w.Some? && w.value.level.mode == Analogue && w.value.intrinsic >= 0 ==>
              (r.value <==> 2 * w.value.level.value + 1 >= w.value.intrinsic)
    ensures w.Some? && w.value.level.mode == Analogue && w.value.intrinsic < 0 ==>
              (r.value <==> 2 * w.value.level.value >= w.value.intrinsic)
  {
    match w
    case None => Sensed(false, HI_Z)
    case Some(x) =>
      var value := match x.level.mode
        case Analogue => x.level.value >= HalfTowardZero(x.intrinsic)
        case Digital => x.level.value != 0;
      Sensed(value, x.level.strength)
  }

  /**
   * `qemu_wire_sense_a`: the level read as an analogue quantity. A digital
   * true reads as the wire's intrinsic value, a digital false as 0.
   */
  function SenseA(w: Option<WireState>): (r: Sensed<int>)
    ensures r.strength == SenseStrength(w)
    ensures w.None? ==> r.value == 0
    ensures w.Some? && w.value.level.mode == Analogue ==> r.value == w.value.level.value
    ensures w.Some? && w.value.level.mode == Digital ==>
              r.value == if Sense(w).value then w.value.intrinsic else 0
  {
    match w
    case None => Sensed(0, HI_Z)
    case Some(x) =>
      var value := match x.level.mode
        case Analogue => x.level.value
        case Digital => if x.level.value != 0 then x.intrinsic else 0;
      Sensed(value, x.level.strength)
  }

  /** `WIRE_IS_HI_Z`. */
  predicate IsHiZ(w: Option<WireState>)
  {
    SenseStrength(w) == HI_Z
  }

  /** A wire nothing drives reads as digital false, analogue 0, Hi-Z and not in conflict. */
  lemma UndrivenReadsLow(x: WireState)
    requires Cached(x) == Resolution(UNDRIVEN, false)
    ensures Sense(Some(x)) == Sensed(false, HI_Z) && SenseA(Some(x)) == Sensed(0, HI_Z)
    ensures IsHiZ(Some(x)) && !SenseConflicted(Some(x))
  {
    assert x.level == UNDRIVEN;
  }

  /**
   * Reading a digital level as analogue and driving that value back in
   * analogue mode reads the same boolean, provided the intrinsic value is at
   * least 2 (with 1, digital false would read back as true).
   */
  lemma {:induction false} DigitalThroughAnalogue(x: WireState)
    requires x.level.mode == Digital && x.intrinsic >= 2
    ensures var y := x.(level := x.level.(mode := Analogue, value := SenseA(Some(x)).value));
            Sense(Some(y)).value == Sense(Some(x)).value
  {
    var a := SenseA(Some(x)).value;
    var y := x.(level := x.level.(mode := Analogue, value := a));
    if Sense(Some(x)).value {
      assert a == x.intrinsic;
      assert 2 * a + 1 >= x.intrinsic;
    } else {
      assert a == 0;
      assert !(2 * a + 1 >= x.intrinsic);
    }
  }

  /** The analogue threshold is monotone: a higher analogue level never reads lower. */
  lemma AnalogueMonotone(x: WireState, v: int, v': int)
    requires x.level.mode == Analogue && v <= v'
    requires Sense(Some(x.(level := x.level.(value := v)))).value
    ensures Sense(Some(x.(level := x.level.(value := v')))).value
  {
  }

  /** The single-bit mask `1 << i` of wire i. */
  function Bit(i: nat): bv32
    requires i < 32
  {
    (1 as bv32) << i
  }

  /** Two masks share a bit exactly when they are the same wire's. */
  lemma BitsDisjoint(i: nat, j: nat)
    requires i < 32 && j < 32
    ensures Bit(i) & Bit(j) != 0 <==> i == j
  {
  }

  /** The mask `qemu_wire_multi_sense` builds: bit i set when wire i reads true. */
  function SenseBits(ws: seq<Option<WireState>>): (r: bv32)
    requires |ws| <= 32
  {
    if ws == [] then 0
    else SenseBits(ws[..|ws| - 1]) | (if Sense(ws[|ws| - 1]).value then Bit(|ws| - 1) else 0)
  }

  /** One more wire read adds its own bit to the mask. */
  lemma SenseBitsStep(ws: seq<Option<WireState>>, i: nat)
    requires i < |ws| && i < 32
    ensures SenseBits(ws[..i + 1]) == SenseBits(ws[..i]) | (if Sense(ws[i]).value then Bit(i) else 0)
  {
    assert ws[..i + 1][..i] == ws[..i];
  }

  /** The loop's step: or-ing in the current bit when wire i reads true extends the mask by wire i. */
  lemma MaskStep(ws: seq<Option<WireState>>, i: nat, mask: bv32, bit: bv32)
    requires i < |ws| && i < 32
    requires mask == SenseBits(ws[..i]) && bit == Bit(i)
    ensures SenseBits(ws[..i + 1]) == if Sense(ws[i]).value then mask | bit else mask
  {
    if Sense(ws[i]).value {
      MaskStepSet(ws, i, mask);
    } else {
      MaskStepClear(ws, i, mask);
    }
  }

  lemma MaskStepSet(ws: seq<Option<WireState>>, i: nat, mask: bv32)
    requires i < |ws| && i < 32 && Sense(ws[i]).value
    requires mask == SenseBits(ws[..i])
    ensures SenseBits(ws[..i + 1]) == mask | Bit(i)
  {
    SenseBitsStep(ws, i);
  }

  lemma MaskStepClear(ws: seq<Option<WireState>>, i: nat, mask: bv32)
    requires i < |ws| && i < 32 && !Sense(ws[i]).value
    requires mask == SenseBits(ws[..i])
    ensures SenseBits(ws[..i + 1]) == mask
  {
    SenseBitsStep(ws, i);
    OrZero(mask);
  }

  lemma OrZero(x: bv32)
    ensures x | 0 == x
  {
  }

  /** Bit j of the mask is set exactly when wire j exists and reads true. */
  lemma {:induction false} SenseBitsAt(ws: seq<Option<WireState>>, j: nat)
    requires |ws| <= 32 && j < 32
    ensures SenseBits(ws) & Bit(j) != 0 <==> j < |ws| && Sense(ws[j]).value
  {
    if ws != [] {
      var n := |ws| - 1;
      var p := ws[..n];
      SenseBitsAt(p, j);
      BitsDisjoint(n, j);
      var b: bv32 := if Sense(ws[n]).value then Bit(n) else 0;
      assert SenseBits(ws) & Bit(j) == (SenseBits(p) & Bit(j)) | (b & Bit(j));
      if j < n {
        assert ws[j] == p[j];
      }
    }
  }

  function MinStrength(a: Strength, b: Strength): Strength
  {
    if b < a then b else a
  }

  /** The weakest strength among the wires read; Hi-Z when none is read. */
  function Weakest(ws: seq<Option<WireState>>): (m: Strength)
    ensures ws == [] ==> m == HI_Z
    ensures forall k :: 0 <= k < |ws| ==> m <= SenseStrength(ws[k])
    ensures ws != [] ==> exists k :: 0 <= k < |ws| && m == SenseStrength(ws[k])
  {
    if |ws| <= 1 then (if ws == [] then HI_Z else SenseStrength(ws[0]))
    else MinStrength(Weakest(ws[..|ws| - 1]), SenseStrength(ws[|ws| - 1]))
  }

  /** The weakest is Hi-Z exactly when no wire is read or some wire read is Hi-Z. */
  lemma WeakestHiZ(ws: seq<Option<WireState>>)
    ensures Weakest(ws) == HI_Z <==> ws == [] || exists k :: 0 <= k < |ws| && IsHiZ(ws[k])
  {
  }

  /** At most 32 wires are read: the mask has 32 bits. */
  function Clamp32(n: nat): (m: nat)
    ensures m <= 32 && m <= n && (n <= 32 ==> m == n)
  {
    if n > 32 then 32 else n
  }

  /**
   * `qemu_wire_multi_sense`: read the first `n` wires (at most 32) into a
   * mask, bit i for wire i, and report the weakest strength read.
   */
  method MultiSense(ws: seq<Option<WireState>>, n: nat) returns (result: bv32, weakest: Strength)
    requires n <= |ws|
    ensures result == SenseBits(ws[..Clamp32(n)])
    ensures weakest == Weakest(ws[..Clamp32(n)])
  {
    var m := if n > 32 then 32 else n;
    weakest, result := HI_Z, 0;
    var i := 0;
    while i < m
      invariant 0 <= i <= m
      invariant result == SenseBits(ws[..i])
      invariant weakest == Weakest(ws[..i])
    {
      var r := Sense(ws[i]);
      // the running `bit`, shifted left once per wire, is Bit(i) here
      var bit := Bit(i);
      MaskStep(ws, i, result, bit);
      assert ws[..i + 1][..i] == ws[..i];
      if r.value {
        result := result | bit;
      }
      if i == 0 || r.strength < weakest {
        weakest := r.strength;
      }
      i := i + 1;
    }
    assert m == Clamp32(n);
  }
}
