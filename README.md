# TinyKart motion control, modelled in Dafny

A model of two pieces of the TinyKart MicroPython vehicle controller:

- **esc_servo.py** — the conversion of a steering angle to a servo pulse
  width in nanoseconds (`convert_angle`), the conversion of a power fraction
  to a 16-bit ESC duty (`convert_speed`), and the ESC arming handshake
  (`arm_esc`). Both PWM outputs run at 100 Hz, so a duty is a fraction of a
  10 ms period out of 65535. Module `EscServo` in `esc_servo.dfy`.
- **uart_test.py** — the serial command link. The producer task
  (`uart_handler`) reads one byte at a time, collects bytes until the
  terminator `!` and puts the collected frame on a queue. The consumer task
  (`main`) takes frames off the queue in order and toggles the LED on every
  frame equal to `b'light'`. The pure framing logic is module `Frames` in
  `frames.dfy`. The shared state is the class `UartTest.Link` in
  `uart_test.dfy`. It holds the buffer (`message`), the queue and the LED,
  plus a ghost history of every byte read and every frame taken.

Modelling choices:

- Python floats are modelled as exact reals, and `math.floor` as `.Floor`.
- The servo pulse and the ESC duty are unbounded integers. Every value they
  can take fits the hardware range, and the contracts prove it.
- `duty_u16` followed by `sleep` is modelled by `PwmLine`. That object keeps
  the duty it currently drives and a trace of `(duty, hold ms)` steps, which
  is what the ESC observes.
- The UART is a parameter. Each poll either finds nothing (`Idle`) or
  delivers one byte. The `uasyncio` scheduler becomes an explicit sequence
  of steps: a producer poll, or a consumer `get`.
- A `get` on an empty queue would suspend `main`. In the model it takes
  nothing and changes nothing.
- `Link.Valid()` is the invariant every operation keeps. It says that the
  frames taken and the frames still queued are, in order, exactly the
  frames the stream read so far completes. It also says that the buffer is
  the open frame, and that the LED is the result of toggling once per
  `b'light'` frame taken.

Behaviours a reader might expect that the code does not have:

- The frame reader keeps space bytes. It does not drop them.
- `convert_speed` takes a fraction in [0.2, 0.8], not a percentage in
  [0, 80]. It has no reverse direction.
- `convert_angle` is not exactly odd-symmetric about 1.5 ms, because of the
  floor. `AngleNearOddSymmetry` states the exact relation.
- Only the ±45° hardware range appears in the code. A narrower operational
  steering range does not.

## Model

| member | source | states |
|---|---|---|
| `EscServo.DutyOfPulse` | esc_servo.py:42-45 | the duty for a pulse of `ms` (at most one 10 ms period at 100 Hz) is the largest 16-bit duty whose high time does not exceed `ms` |
| `EscServo.ConvertAngle` | esc_servo.py:30-39 | every angle gives a pulse in [1,000,000, 2,000,000] ns; negative angles give at most, positive angles at least, the straight pulse |
| `EscServo.StraightAgreesWithFormula` | esc_servo.py:31-38 | angle 0 gives 1,500,000 ns, and the general formula at 0 gives the same value, so the special case is consistent |
| `EscServo.AngleClamps` | esc_servo.py:34-37 | below -45 the pulse is that of -45, above 45 that of 45, and any angle is treated like its clamped value |
| `EscServo.AngleEndpoints` | esc_servo.py:34-39 | the range ends are reached: -45 gives 1,000,000 ns and 45 gives 2,000,000 ns |
| `EscServo.AngleMonotone` | esc_servo.py:34-39 | the pulse is non-decreasing in the angle |
| `EscServo.AngleIntegerFormula` | esc_servo.py:34-39 | for an integer angle the pulse is exactly 1,500,000 + floor(100000 * a / 9), with a the clamped angle |
| `EscServo.AngleNearOddSymmetry` | esc_servo.py:38-39 | the pulses for `angle` and `-angle` sum to 3,000,000 or 2,999,999 ns |
| `EscServo.ConvertSpeed` | esc_servo.py:19-26 | with the intended clamp to [0.2, 0.8], every duty lies in [10485, 12451], strictly above the neutral arming duty 9830 |
| `EscServo.SpeedIsPulseDuty` | esc_servo.py:25 | the speed duty is the 16-bit duty of a 1.5 + 0.5 * p ms pulse in the 10 ms period, p the clamped power |
| `EscServo.SpeedClamps` | esc_servo.py:19-24 | below 0.2 the duty is that of 0.2 (10485); above 0.8 it is that of 0.8 (12451) |
| `EscServo.SpeedMonotone` | esc_servo.py:25 | the duty is non-decreasing in the power fraction |
| `EscServo.SpeedOnlyForward` | esc_servo.py:11-25 | every speed duty lies strictly between the neutral duty and the full-forward arming duty, so a speed command only drives forward |
| `EscServo.ConvertSpeedAsWritten` | esc_servo.py:20-26 | the code as written succeeds exactly on inputs below 0.2, and then with duty 10485 |
| `EscServo.AsWrittenDiffersFromIntended` | esc_servo.py:21-24 | as written, an input below 0.2 gives the intended duty, and every other input raises NameError for `precent` |
| `EscServo.AsWrittenFailsAtHalfPower` | esc_servo.py:23 | at 0.5 the code as written raises, where the intended conversion gives 11468 |
| `EscServo.ArmingSequence` | esc_servo.py:5-16 | the handshake has three steps: the floored duties of 2.0 ms, 1.0 ms and 1.5 ms (9830, the neutral duty); the first two are held for two 10 ms periods and the last for at least 500 ms |
| `EscServo.PwmLine.SetDuty` | esc_servo.py:11 | `duty_u16` changes the driven duty and records nothing yet |
| `EscServo.PwmLine.Hold` | esc_servo.py:12 | `sleep` appends the current duty with its hold time to the trace and leaves the duty unchanged |
| `EscServo.ArmEsc` | esc_servo.py:10-16 | exactly the arming sequence is appended to the pin's trace, in order and nothing else, and the pin is left at neutral |
| `Frames.Split` | uart_test.py:27-36 | no completed frame and no open frame ever holds the terminator `!` |
| `Frames.SplitStep` | uart_test.py:30-36 | a `!` closes the open frame (terminator excluded) and empties the buffer; any other byte, spaces included, goes on the end of the open frame and completes nothing |
| `Frames.SplitJoin` | uart_test.py:27-36 | round trip: the completed frames, each followed by `!`, then the open frame, give back the stream read |
| `Frames.JoinSplit` | uart_test.py:27-36 | inverse round trip: frames and an open frame without `!` are recovered from the stream they produce |
| `Frames.SplitPlainSuffix` | uart_test.py:35-36 | bytes without `!` only extend the open frame and leave the completed frames unchanged |
| `Frames.SplitPrefix` | uart_test.py:33 | reading more never changes or reorders the frames already completed |
| `Frames.SplitCountsTerminators` | uart_test.py:30-33 | there is one completed frame per `!` read |
| `Frames.EmptyFrame` | uart_test.py:30-34 | a `!` on an empty buffer completes the empty frame `b''` |
| `Frames.CountLightAppend` | uart_test.py:47-48 | the number of `b'light'` frames adds up over concatenation |
| `Frames.CountLightZero` | uart_test.py:47-48 | there are no `b'light'` frames exactly when the count is zero |
| `Frames.LedAfterParity` | uart_test.py:43-48 | toggling once per `b'light'` frame leaves the LED at its initial level XOR the parity of the `b'light'` frames; other frames leave it unchanged |
| `UartTest.Link.constructor` | uart_test.py:20-25 | the link starts with an empty buffer, an empty queue and the given LED level |
| `UartTest.Link.Feed` | uart_test.py:29-36 | on `!` the buffer is enqueued as a frame and then emptied; any other byte is appended to the buffer and the queue is untouched; the LED never changes |
| `UartTest.Link.PollOnce` | uart_test.py:28-37 | when no byte is available nothing is read and the buffer and queue are unchanged; otherwise the step is `Feed` |
| `UartTest.Link.Handler` | uart_test.py:24-37 | over any run of polls, every byte read is framed, and frames already queued stay first in line |
| `UartTest.Link.Consume` | uart_test.py:45-48 | takes the oldest queued frame and toggles the LED exactly when that frame is `b'light'`; on an empty queue nothing changes |
| `UartTest.Link.Drain` | uart_test.py:43-48 | takes every queued frame in enqueue order; the LED ends at its old level XOR the parity of the `b'light'` frames taken |
| `UartTest.Link.StepOnce` | uart_test.py:37-45 | a producer step is one poll (it takes no frame and leaves the LED alone); a consumer step takes exactly the oldest queued frame, or nothing on an empty queue, and leaves the buffer and the bytes read alone |
| `UartTest.Link.Run` | uart_test.py:39-51 | under every interleaving of the two tasks, every polled byte is read, main takes exactly as many frames as there were waiting at its consumer steps (the fold `TakenAfter`), always oldest first, and the invariant holds |
| `UartTest.ValidMeans` | uart_test.py:24-48 | in every valid state, the frames taken and queued, each with `!`, then the buffer give back every byte read; no frame and no buffer holds `!`; the LED is the initial level XOR the parity of the `b'light'` frames taken |

## Findings

| source | as written | input that shows it | evidently intended | confidence | as-written member | corrected member |
|---|---|---|---|---|---|---|
| esc_servo.py:23 | `elif precent > 0.8:` tests a name that is never defined | `convert_speed(0.5)`, and every other power of at least 0.2, raises NameError | `elif percent > 0.8:`, clamping to 0.8 as the comment on line 19 says | not executed; high | `EscServo.ConvertSpeedAsWritten` (with `EscServo.AsWrittenFailsAtHalfPower`) | `EscServo.ConvertSpeed` |

The demo call at esc_servo.py:54 passes 0.1, which takes the first branch, so
the demo itself never reaches the misspelt name.

## Left out

- test.py is not part of this model. It holds a falling-edge interrupt with a wall-clock debounce that sets a flag for a main loop. That is interrupt timing, not sequential logic.
- The string literal at uart_test.py:4-17 is left out. It is dead code and never runs.
- Hardware setup and teardown are left out: `PWM`/`Pin`/`UART` construction, `freq`, `init` and `deinit`. The pins and the UART exist only as recorded state and poll results.
- The demo script body at esc_servo.py:47-61 is left out.
- The `uasyncio` scheduler is collapsed into explicit steps. Task creation, `await` suspension and the 50 ms poll sleep have no timing in the model.
- `EscServo.PwmLine.Hold`: a hold is recorded as a whole number of milliseconds. Timing tolerance is not modelled.
- Python float rounding is left out. The conversions are exact over the reals, so values that IEEE-754 would round differently are not captured.
- `print` output is left out.
- Behaviour no file implements is not modelled: direction tracking, braking before reversal, an F/R/S/N/E command decoder, space elision, rejecting commands before arming, shutdown, and the back-forward-neutral arming variant that only the comment at esc_servo.py:5 mentions.
