/** Pulse conversions for the steering servo and the motor speed controller
    (ESC), and the ESC arming handshake.

    Both PWM outputs run at 100 Hz, so one period is 10 ms; a duty is a 16-bit
    fraction of that period (0 .. 65535) and a servo pulse is given directly
    in nanoseconds. Python's float arithmetic is modelled with exact reals and
    `math.floor` with `.Floor`. */
module EscServo {

  /** Full scale of `duty_u16`. */
  const MaxDuty: int := 65535
  /** Repetition rate of both PWM outputs. */
  const PwmFreqHz: int := 100
  /** Length of one PWM period in milliseconds. */
  const PeriodMs: real := 1000.0 / 100.0

  type Duty = d: int | 0 <= d <= MaxDuty

  /** The duty that holds the line high for `ms` milliseconds of each period:
      the largest 16-bit duty whose high time does not exceed `ms`. */
  function DutyOfPulse(ms: real): (d: int)
    requires 0.0 <= ms <= PeriodMs
    ensures 0 <= d <= MaxDuty
    ensures d as real * PeriodMs <= ms * MaxDuty as real < (d + 1) as real * PeriodMs
  {
    (ms / PeriodMs * MaxDuty as real).Floor
  }

  // ---------------------------------------------------------------------
  // convert_angle: steering angle in degrees to a servo pulse in ns
  // ---------------------------------------------------------------------

  /** The hardware steering range is [-MaxAngle, MaxAngle] degrees. */
  const MaxAngle: real := 45.0
  /** The straight-ahead servo pulse: 1.5 ms. */
  const StraightNs: int := 1500000

  function ClampAngle(angle: real): (a: real)
    ensures -MaxAngle <= a <= MaxAngle
    ensures -MaxAngle <= angle <= MaxAngle ==> a == angle
  {
    if angle < -45.0 then -45.0 else if angle > 45.0 then 45.0 else angle
  }

  /** Pulse length in ms for an angle already inside the range. */
  function AngleMs(a: real): (ms: real)
  {
    (a / 45.0) * 0.5 + 1.5
  }

  function MsToNs(ms: real): (ns: int)
  {
    (ms * 1000000.0).Floor
  }

  /** `convert_angle`: angle 0 is special-cased to exactly 1.5 ms; any other
      angle is clamped to [-45, 45] and mapped linearly onto [1 ms, 2 ms]. */
  function ConvertAngle(angle: real): (ns: int)
    ensures 1000000 <= ns <= 2000000
    ensures angle < 0.0 ==> ns <= StraightNs
    ensures angle > 0.0 ==> ns >= StraightNs
  {
    if angle == 0.0 then MsToNs(1.5)
    else MsToNs(AngleMs(ClampAngle(angle)))
  }

  /** The straight-ahead branch gives 1,500,000 ns, and so does the general
      formula evaluated at 0: the special case changes nothing. */
  lemma StraightAgreesWithFormula()
    ensures ConvertAngle(0.0) == StraightNs
    ensures MsToNs(AngleMs(ClampAngle(0.0))) == StraightNs
  {
  }

  /** Every angle is treated like its clamped value. */
  lemma AngleClamps(angle: real)
    ensures angle < -45.0 ==> ConvertAngle(angle) == ConvertAngle(-45.0)
    ensures angle > 45.0 ==> ConvertAngle(angle) == ConvertAngle(45.0)
    ensures ConvertAngle(angle) == ConvertAngle(ClampAngle(angle))
  {
  }

  /** The range ends are reached exactly at the clamp limits. */
  lemma AngleEndpoints()
    ensures ConvertAngle(-45.0) == 1000000
    ensures ConvertAngle(45.0) == 2000000
  {
  }

  /** Turning further never shortens the pulse. */
  lemma AngleMonotone(a: real, b: real)
    requires a <= b
    ensures ConvertAngle(a) <= ConvertAngle(b)
  {
  }

  /** Integer angles: the pulse is 1,500,000 + floor(100000 * angle / 9) ns,
      computed with integer division on the clamped angle. */
  lemma AngleIntegerFormula(angle: int)
    ensures var a := if angle < -45 then -45 else if angle > 45 then 45 else angle;
            ConvertAngle(angle as real) == StraightNs + (100000 * a) / 9
  {
  }

  /** The pulse is symmetric about straight ahead up to the floor: the pulses
      for `angle` and `-angle` sum to 3,000,000 ns, or one less when the
      exact pulse is not a whole number of nanoseconds. */
  lemma AngleNearOddSymmetry(angle: real)
    ensures ConvertAngle(angle) + ConvertAngle(-angle) in {3000000, 2999999}
  {
  }

  // ---------------------------------------------------------------------
  // convert_speed: power fraction to an ESC duty
  // ---------------------------------------------------------------------

  /** Forward power is bounded to [20 %, 80 %]. */
  const MinPower: real := 0.2
  const MaxPower: real := 0.8

  /** The neutral (1.5 ms) duty the arming handshake ends on. */
  const NeutralDuty: int := 9830

  function ClampPower(percent: real): (p: real)
    ensures MinPower <= p <= MaxPower
    ensures MinPower <= percent <= MaxPower ==> p == percent
  {
    if percent < 0.2 then 0.2 else if percent > 0.8 then 0.8 else percent
  }

  /** `convert_speed` with the clamp its comment intends (line 23 of the
      source tests a misspelt variable; see ConvertSpeedAsWritten). The
      power fraction becomes a pulse of 1.5 + 0.5 * p ms, as a 16-bit duty of
      the 10 ms period. */
  function ConvertSpeed(percent: real): (duty: int)
    ensures 10485 <= duty <= 12451
    ensures duty > NeutralDuty
  {
    var p := ClampPower(percent);
    ((1.5 + p * 0.5) / 10.0 * 65535.0).Floor
  }

  /** The speed duty is the 16-bit duty of a pulse of 1.5 + 0.5 * p ms,
      p the clamped power fraction. */
  lemma SpeedIsPulseDuty(percent: real)
    ensures ConvertSpeed(percent) == DutyOfPulse(1.5 + 0.5 * ClampPower(percent))
  {
  }

  /** Below 20 % the duty is that of 20 %, above 80 % that of 80 %. */
  lemma SpeedClamps(percent: real)
    ensures percent < 0.2 ==> ConvertSpeed(percent) == ConvertSpeed(0.2)
    ensures percent > 0.8 ==> ConvertSpeed(percent) == ConvertSpeed(0.8)
    ensures ConvertSpeed(0.2) == 10485 && ConvertSpeed(0.8) == 12451
  {
  }

  /** More power never gives a shorter pulse. */
  lemma SpeedMonotone(p: real, q: real)
    requires p <= q
    ensures ConvertSpeed(p) <= ConvertSpeed(q)
  {
  }

  /** The duty for `p` lies strictly between the neutral and the full-forward
      arming duties, so a speed command only ever drives forward. */
  lemma SpeedOnlyForward(p: real)
    ensures NeutralDuty < ConvertSpeed(p) < DutyOfPulse(2.0)
  {
  }

  /** The error Python raises for an undefined variable. */
  datatype PyError = NameError(name: string)

  datatype Result<T> = Ok(value: T) | Err(error: PyError)

  /** `convert_speed` as written: the `elif` reads `precent`, which is not
      defined, so every input of at least 0.2 raises NameError; only inputs
      below 0.2 return, with the duty of 20 %. */
  function ConvertSpeedAsWritten(percent: real): (r: Result<int>)
    ensures r.Ok? <==> percent < 0.2
    ensures r.Ok? ==> r.value == 10485
  {
    if percent < 0.2 then Ok(((1.5 + 0.2 * 0.5) / 10.0 * 65535.0).Floor)
    else Err(NameError("precent"))
  }

  /** The code as written agrees with the intended conversion exactly on the
      inputs below 20 % and fails on all others. */
  lemma AsWrittenDiffersFromIntended(percent: real)
    ensures percent < 0.2 ==> ConvertSpeedAsWritten(percent) == Ok(ConvertSpeed(percent))
    ensures percent >= 0.2 ==> ConvertSpeedAsWritten(percent) == Err(NameError("precent"))
  {
  }

  /** A concrete input: half power raises instead of returning a duty. */
  lemma AsWrittenFailsAtHalfPower()
    ensures ConvertSpeedAsWritten(0.5).Err?
    ensures ConvertSpeed(0.5) == 11468
  {
  }

  // ---------------------------------------------------------------------
  // arm_esc: the fixed arming handshake
  // ---------------------------------------------------------------------

  /** One step seen by the ESC: the line held at `duty` for `holdMs` ms. */
  datatype Pulse = Pulse(duty: Duty, holdMs: nat)

  /** Full forward (2 ms) for two periods, full reverse (1 ms) for two
      periods, then neutral (1.5 ms) for 500 ms. */
  function ArmingSequence(): (s: seq<Pulse>)
    ensures |s| == 3
    ensures s[0].duty == DutyOfPulse(2.0)
    ensures s[1].duty == DutyOfPulse(1.0)
    ensures s[2].duty == DutyOfPulse(1.5) == NeutralDuty
    ensures s[0].holdMs as real == 2.0 * PeriodMs && s[1].holdMs as real == 2.0 * PeriodMs
    ensures s[2].holdMs >= 500
  {
    [Pulse(13107, 20), Pulse(6553, 20), Pulse(9830, 500)]
  }

  /** A PWM output as the device on it sees it: the duty currently driven
      and the record of how long each duty was held. */
  class PwmLine {
    var duty: Duty
    var trace: seq<Pulse>

    constructor ()
      ensures duty == 0 && trace == []
    {
      duty := 0;
      trace := [];
    }

    /** `duty_u16`: changes the level driven from now on. */
    method SetDuty(d: Duty)
      modifies this
      ensures duty == d && trace == old(trace)
    {
      duty := d;
    }

    /** `sleep`: the current duty stays on the line for `ms` milliseconds. */
    method Hold(ms: nat)
      modifies this
      ensures duty == old(duty)
      ensures trace == old(trace) + [Pulse(duty, ms)]
    {
      trace := trace + [Pulse(duty, ms)];
    }
  }

  /** `arm_esc`: drives exactly the arming handshake, in order, and leaves
      the line at neutral. */
  method ArmEsc(pin: PwmLine)
    modifies pin
    ensures pin.trace == old(pin.trace) + ArmingSequence()
    ensures pin.duty == NeutralDuty
  {
    pin.SetDuty(13107);
    pin.Hold(20);
    pin.SetDuty(6553);
    pin.Hold(20);
    pin.SetDuty(9830);
    pin.Hold(500);
  }
}
