/**
 * The firmware's servo controller: per-servo trim, a 0..180 safety clamp,
 * the angle-to-pulse mapping for the PWM driver, and the table of last
 * commanded angles. The PWM chip itself is represented by the list of
 * `setPWM(channel, on, off)` calls the controller makes.
 */
module ServoController {
  import opened Num
  import opened Wrappers

  const SERVO_COUNT: nat := 6
  /** Pulse widths in 12-bit driver steps. */
  const MIN_PULSE: int := 245
  const MAX_PULSE: int := 490
  /** Per-servo trim in degrees (`int8_t` in the firmware configuration). */
  const TRIM_OFFSETS: seq<int> := [0, 0, 0, 0, 0, 0]
  /** Angle every stored entry holds after `init`. */
  const DEFAULT_ANGLE: Byte := 90

  /** One `pca9685.setPWM(channel, on, off)` call. */
  datatype PwmWrite = PwmWrite(channel: nat, on: nat, off: int)

  /** The controller's `currentAngles` table. */
  datatype Controller = Controller(current: seq<Byte>)

  predicate Valid(c: Controller) {
    |c.current| == SERVO_COUNT
  }

  /** Arduino's `map(x, inMin, inMax, outMin, outMax)`, computed in `long` with C division. */
  function ArduinoMap(x: int, inMin: int, inMax: int, outMin: int, outMax: int): int
    requires inMax > inMin
  {
    CDiv((x - inMin) * (outMax - outMin), inMax - inMin) + outMin
  }

  /** `angleToPulse`: the linear interpolation of 0..180 degrees onto MIN_PULSE..MAX_PULSE. */
  function AngleToPulse(angle: Byte): (pulse: int)
    ensures angle <= 180 ==> MIN_PULSE <= pulse <= MAX_PULSE
    ensures angle == 0 ==> pulse == MIN_PULSE
    ensures angle == 180 ==> pulse == MAX_PULSE
  {
    ArduinoMap(angle, 0, 180, MIN_PULSE, MAX_PULSE)
  }

  /** A larger angle never yields a shorter pulse. */
  lemma AngleToPulseMonotone(a: Byte, b: Byte)
    requires a <= b
    ensures AngleToPulse(a) <= AngleToPulse(b)
  {
    DivMonotone(a * (MAX_PULSE - MIN_PULSE), b * (MAX_PULSE - MIN_PULSE), 180);
  }

  lemma DivMonotone(x: nat, y: nat, d: nat)
    requires x <= y && d > 0
    ensures x / d <= y / d
  {
    assert d * (x / d) <= x;
    assert y < d * (y / d) + d;
    MulCancel(d, x / d, y / d + 1);
  }

  /** Products with a common positive factor keep the order of the other factors. */
  lemma {:induction false} MulCancel(d: nat, a: nat, b: nat)
    requires d > 0 && d * a < d * b
    ensures a < b
    decreases a
  {
    if a > 0 && b > 0 {
      assert d * (a - 1) < d * (b - 1) by {
        assert d * a == d * (a - 1) + d;
        assert d * b == d * (b - 1) + d;
      }
      MulCancel(d, a - 1, b - 1);
    }
  }

  /** The pulse lies within one driver step below the exact linear interpolation. */
  lemma AngleToPulseIsLinear(a: Byte)
    requires a <= 180
    ensures (AngleToPulse(a) - MIN_PULSE) * 180 <= a * (MAX_PULSE - MIN_PULSE)
    ensures a * (MAX_PULSE - MIN_PULSE) < (AngleToPulse(a) - MIN_PULSE + 1) * 180
  {
  }

  /** `init`: every stored angle becomes 90 (the chip set-up writes no channel). */
  function Init(): (c: Controller)
    ensures Valid(c)
    ensures forall i :: 0 <= i < SERVO_COUNT ==> c.current[i] == DEFAULT_ANGLE
  {
    Controller([DEFAULT_ANGLE, DEFAULT_ANGLE, DEFAULT_ANGLE, DEFAULT_ANGLE, DEFAULT_ANGLE, DEFAULT_ANGLE])
  }

  /** The angle actually driven for `angle` on `index`: trim applied, then clamped to 0..180. */
  function SafeAngle(index: nat, angle: Byte): (safe: Byte)
    requires index < SERVO_COUNT
    ensures safe <= 180
    ensures 0 <= angle + TRIM_OFFSETS[index] <= 180 ==> safe == angle + TRIM_OFFSETS[index]
    ensures angle + TRIM_OFFSETS[index] < 0 ==> safe == 0
    ensures angle + TRIM_OFFSETS[index] > 180 ==> safe == 180
  {
    Clamp(angle + TRIM_OFFSETS[index], 0, 180)
  }

  /**
   * `setAngle(index, angle)`: an out-of-range index is ignored; otherwise the
   * trimmed and clamped angle is written to the driver as a pulse and the
   * untrimmed commanded angle is stored.
   */
  function SetAngle(c: Controller, index: Byte, angle: Byte): (r: (Controller, Option<PwmWrite>))
    requires Valid(c)
    ensures Valid(r.0)
    ensures index >= SERVO_COUNT ==> r.0 == c && r.1 == None
    ensures index < SERVO_COUNT ==>
      && r.1.Some?
      && r.1.value.channel == index
      && r.1.value.on == 0
      && MIN_PULSE <= r.1.value.off <= MAX_PULSE
      && r.1.value.off == AngleToPulse(SafeAngle(index, angle))
      && r.0.current[index] == angle
    ensures forall j :: 0 <= j < SERVO_COUNT && j != index ==> r.0.current[j] == c.current[j]
  {
    if index >= SERVO_COUNT then (c, None)
    else
      var pulse := AngleToPulse(SafeAngle(index, angle));
      (Controller(c.current[index := angle]), Some(PwmWrite(index, 0, pulse)))
  }

  /** `getAngle(index)`: the last commanded angle, or 0 for an invalid index. */
  function GetAngle(c: Controller, index: Byte): (a: Byte)
    requires Valid(c)
  {
    if index < SERVO_COUNT then c.current[index] else 0
  }

  /** Reading back after a write returns the untrimmed commanded angle; other servos are untouched. */
  lemma GetAfterSet(c: Controller, index: Byte, angle: Byte, other: Byte)
    requires Valid(c)
    ensures index < SERVO_COUNT ==> GetAngle(SetAngle(c, index, angle).0, index) == angle
    ensures other != index ==> GetAngle(SetAngle(c, index, angle).0, other) == GetAngle(c, other)
    ensures other >= SERVO_COUNT ==> GetAngle(c, other) == 0
  {
  }

  /** `disableAll`: a zero pulse on channels 0..SERVO_COUNT-1, in channel order. */
  function DisableAll(): (w: seq<PwmWrite>)
    ensures |w| == SERVO_COUNT
    ensures forall i :: 0 <= i < |w| ==> w[i] == PwmWrite(i, 0, 0)
  {
    DisableFrom(0)
  }

  function DisableFrom(i: nat): (w: seq<PwmWrite>)
    requires i <= SERVO_COUNT
    ensures |w| == SERVO_COUNT - i
    ensures forall k :: 0 <= k < |w| ==> w[k] == PwmWrite(i + k, 0, 0)
    decreases SERVO_COUNT - i
  {
    if i == SERVO_COUNT then [] else [PwmWrite(i, 0, 0)] + DisableFrom(i + 1)
  }
}
