/** Rotation direction and its wire code (src/direction.rs). */
module Directions {
  import opened Bytes

  datatype Direction = Forward | Reverse

  /** `direction as u8`. */
  function Code(d: Direction): (c: uint8)
    ensures c == 0x80 <==> d == Forward
    ensures c == 0x00 <==> d == Reverse
  {
    match d
    case Forward => 0x80
    case Reverse => 0x00
  }

  /**
   * The speed byte of the run commands: `speed | direction as u8`. Reverse
   * leaves any speed as it is; for a speed up to 0x7F, Forward sets bit 7,
   * which the speed does not use.
   */
  function SpeedByte(d: Direction, speed: uint8): (b: uint8)
    ensures d == Reverse ==> b == speed
    ensures speed <= 0x7F ==> b == speed + Code(d)
  {
    BitOr(speed, Code(d))
  }

  /** Splits a speed byte into its direction (bit 7) and its speed (bits 0..6). */
  function SplitSpeedByte(b: uint8): (r: (Direction, uint8))
    ensures r.1 < 0x80
  {
    (if b >= 0x80 then Forward else Reverse, b % 0x80)
  }

  /**
   * For a speed that fits in seven bits, both the speed and the direction can be
   * recovered from the speed byte.
   */
  lemma SpeedByteRoundTrip(d: Direction, speed: uint8)
    requires speed <= 0x7F
    ensures SplitSpeedByte(SpeedByte(d, speed)) == (d, speed)
  {
    var b := SpeedByte(d, speed);
    assert (speed + 0x80) % 0x80 == speed % 0x80 == speed;
    assert b == speed + Code(d);
  }

  /** The two codes differ, so the direction is determined by its code. */
  lemma CodeInjective(d1: Direction, d2: Direction)
    ensures Code(d1) == Code(d2) <==> d1 == d2
  {
  }
}
