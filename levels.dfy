/** An optional value; `None` stands for a C NULL pointer. */
module Optional {
  datatype Option<+T> = None | Some(value: T)
}

/**
 * Drive strengths, value modes and driven levels of virtual wires.
 */
module Levels {

  /** Drive strength: 0 is Hi-Z (undriven), 7 a supply. */
  type Strength = s: int | 0 <= s <= 7

  const HI_Z: Strength := 0
  const SMALL: Strength := 1
  const MEDIUM: Strength := 2
  const WEAK: Strength := 3
  const LARGE: Strength := 4
  const PULL: Strength := 5
  const STRONG: Strength := 6
  const SUPPLY: Strength := 7

  const STRENGTH_DEFAULT: Strength := PULL
  const STRENGTH_MAX: Strength := SUPPLY

  /** Analogue value (microvolts) a new wire equates with digital true. */
  const WIRE_INTRINSIC_DEFAULT: int := 3300000

  /** Whether a driven value is a boolean (0 or 1) or a signed analogue quantity. */
  datatype Mode = Digital | Analogue

  /**
   * What a driver asserts, and what a wire caches as its resolved level:
   * a strength, a mode and a value. At Hi-Z the mode and value carry no meaning.
   */
  datatype Drive = Drive(strength: Strength, mode: Mode, value: int)

  /** The level of a wire that no driver drives. */
  const UNDRIVEN: Drive := Drive(HI_Z, Digital, 0)

  /** The digital drive `qemu_wire_drive` builds: true is value 1, false value 0. */
  function DigitalDrive(strength: Strength, dval: bool): (d: Drive)
    ensures d.mode == Digital && d.strength == strength
    ensures d.value == 0 || d.value == 1
    ensures dval <==> d.value != 0
  {
    Drive(strength, Digital, if dval then 1 else 0)
  }
}
