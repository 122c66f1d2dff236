# Access-control controller: main loop and motor driver

This project models the core of a small embedded access-control program
(an mbed board with a joystick, three buttons, a DHT22 temperature and
humidity sensor, an OLED screen, a buzzer and a latch motor). Two sequential
state machines are modelled as pure Dafny functions and their properties
are proved:

- **The main loop** (`main.cpp`). One iteration is a pure `ControlLoop.Step`
  from a `State` to a new `State` plus an action trace. The state holds:
  - the code entry: digit counter `pcount` in [0,9], next free slot
    `passwordIndex` in [0,4], and the four-slot `InputPassword` buffer;
  - the `locked` flag;
  - the cached environment reading (an `Option`, unset before the first
    successful sample);
  - the latch motor driver's state.

  The inputs of one step are the three buttons, the sensor sample (`None`
  when the sensor has no fresh data) and the joystick position `x`. Each step
  goes through these stages in order:
  - the button accumulator: increment, then save, then decrement;
  - the opportunistic sensor refresh;
  - the status screen;
  - the strict `x > 50` trigger;
  - the code comparison;
  - the grant or deny sequence;
  - the unconditional reset of the entry;
  - the loop's trailing 1 s wait.

  The trace records screens, buzzer tones by frequency-table index, buzzes,
  silences, motor commands together with the driver's pin events, and waits
  in milliseconds.
- **The joystick dead zone** (`readJoystick`). `Joystick.Normalize` is an
  integer function of the reading already scaled to 0..100.
- **The motor driver** (`motordriver.cpp`). The driver's state is the duty
  written to the PWM pin, the direction level and the rotation sign `_sign`
  in {-1, 0, 1}. The constructor, `forward`, `backward` and `stop` are
  transitions that return the new state and the pin events they cause:
  duty writes, direction writes and pauses. The speed clamp into [0,1] is
  modelled too.

Modules: `Wrappers` (Option), `MotorDriver`, `Joystick`, `CodeEntry`,
`Environment`, `AccessSequence` (the grant and deny sequences and their
traces) and `ControlLoop` (the state, `Step` and `Run`).

Three behaviours of the code are worth stating up front:
- The trigger tests the signed position, `x > 50` (main.cpp:139), so a push
  to the other side never submits the code.
- `backward`'s pause guard tests `_sign == MOTOR_CCW_ROTATION`
  (motordriver.cpp:33), the same test as `forward`'s; see Findings below.
- No statement after main.cpp:103 sets `locked` to true, so the flag stays
  false after the latch closes; `ControlLoop.NeverRelocks` proves that once
  unlocked, the controller stays unlocked.

## Model

| member | source | states |
|---|---|---|
| `MotorDriver.Clamp` | motordriver.cpp:28 | the applied duty lies in [0,1] and is the point of [0,1] nearest to the requested speed (so 0 below 0, 1 above 1, the speed itself inside) |
| `MotorDriver.SameDutyBothDirections` | motordriver.cpp:40 | `backward` applies the same clamped duty in [0,1] as `forward` does for the same requested speed, whatever state either starts from |
| `MotorDriver.Create` | motordriver.cpp:10-18 | the constructor sets a 1 ms PWM period and leaves duty 0, direction forward (0), sign stopped (0), with no neutral pause |
| `MotorDriver.Forward` | motordriver.cpp:20-30 | afterwards sign is clockwise (1), direction forward (0), duty is the clamped speed; the neutral pause (duty 0, then 0.2 s) occurs exactly when the previous sign was counter-clockwise, and comes first; the last pin write is the new duty |
| `MotorDriver.BackwardAsWritten` | motordriver.cpp:32-42 | the driver as written: afterwards sign is counter-clockwise (-1), direction backward (1), duty the clamped speed; the neutral pause occurs exactly when the previous sign was already counter-clockwise |
| `MotorDriver.Backward` | motordriver.cpp:32-42 | corrected `backward`: same end state as the code, but the neutral pause occurs exactly when the call reverses a clockwise rotation |
| `MotorDriver.Stop` | motordriver.cpp:44-48 | afterwards duty is 0 and sign stopped, the direction level is unchanged, the first event writes duty 0 and there is no neutral pause |
| `MotorDriver.Execute` | motordriver.cpp:20-48 | any driver call, with `backward` as written, leaves the sign its command implies and keeps the driver invariant (sign in {-1,0,1}, direction 0 or 1, duty in [0,1]) |
| `MotorDriver.Replay` | motordriver.cpp:3-5 | any sequence of driver calls (the code's `backward` included) keeps the invariant, and the final sign is the one implied by the last call |
| `MotorDriver.SignStaysValid` | motordriver.cpp:10-48 | after construction and any sequence of calls the sign is one of -1, 0, 1 and the duty lies in [0,1] |
| `MotorDriver.PauseIffReversing` | motordriver.cpp:21-24 | with the corrected `backward`, both drive calls pause exactly when they turn the motor round |
| `MotorDriver.BackwardAsWrittenSkipsReversalPause` | motordriver.cpp:33-36 | as written, `backward` after `forward` reverses with no pause, while `backward` after `backward` pauses although it does not reverse |
| `MotorDriver.BackwardVersionsSameState` | motordriver.cpp:39-41 | the code's `backward` and the corrected one reach the same driver state from every starting state; only the pause events differ |
| `MotorDriver.BackwardVersionsAgreeWhenStopped` | motordriver.cpp:33-36 | from a stopped motor the code's `backward` and the corrected one give the same state and events |
| `Joystick.Normalize` | main.cpp:34-41 | the position is 0 when the scaled reading is within 2 of the centre 74, and 74 minus the reading otherwise; it is never strictly between 0 and the dead-zone edge; for readings 0..100 it lies in [-26, 74] |
| `Joystick.DeadZoneExact` | main.cpp:37-41 | the position is 0 exactly for readings 72..76, and it is never in -2..-1 or 1..2 |
| `Joystick.TriggerIffFarSide` | main.cpp:38-40 | for readings 0..100 the code is submitted exactly when the reading is below 24 |
| `Joystick.TriggerBoundary` | main.cpp:139 | the trigger is strict: position 50 does not submit, 51 does; readings 24 and 23 give those positions |
| `CodeEntry.DigitChar` | main.cpp:120 | the saved character is a decimal digit whose value is the counter |
| `CodeEntry.Empty` | main.cpp:98-102 | the initial and reset entry: counter 0, index 0, all four slots zero bytes |
| `CodeEntry.Increment` | main.cpp:114-116 | the counter changes exactly when the button is pressed and it is below 9, and then by +1; index and buffer are untouched; the bounds are kept |
| `CodeEntry.Decrement` | main.cpp:125-127 | the counter changes exactly when the button is pressed and it is above 0, and then by -1; index and buffer are untouched; the bounds are kept |
| `CodeEntry.Save` | main.cpp:119-122 | the entry changes exactly when the button is pressed and the index is below 4; then the counter's digit goes into the slot at the index, the other slots keep their contents and the index grows by 1; the bounds are kept |
| `CodeEntry.Accumulate` | main.cpp:109-127 | one iteration's buttons keep the counter in [0,9] and the index in [0,4], move the counter by at most 1 and the index by 0 or 1, and leave the buffer alone without a save |
| `CodeEntry.SaveSeesIncrement` | main.cpp:114-122 | with increment and save pressed together (counter below 9), the stored digit is the old counter plus 1 |
| `CodeEntry.SavePrecedesDecrement` | main.cpp:114-127 | whatever else is pressed, a save stores the counter as the increment left it and before any decrement; with increment released, or at 9, that is the old counter |
| `CodeEntry.SaveOnFullBufferIgnored` | main.cpp:119 | a save at index 4 leaves the index and the buffer unchanged, whatever else is pressed |
| `CodeEntry.FullBufferUnterminated` | main.cpp:101 | with four digits saved the buffer contains no zero byte, so the `%s` print of it at main.cpp:52 has no terminator inside the buffer |
| `CodeEntry.CheckFrom` | main.cpp:73-78 | the comparison loop from slot `i` returns true exactly when every later slot agrees |
| `CodeEntry.CheckPassword` | main.cpp:72-79 | true exactly when all four slots agree, i.e. exactly when the two codes are equal |
| `CodeEntry.OneDifferenceRejects` | main.cpp:74-75 | any single differing slot makes the comparison false |
| `CodeEntry.WrongLastDigitRejected` | main.cpp:100 | the entry 1, 2, 3, 5 is rejected by the stored code 1, 2, 3, 4 |
| `Environment.Refresh` | main.cpp:130-133 | a failed sample leaves the cache identical; a successful one replaces temperature and humidity together |
| `Environment.CacheHoldsLastSuccess` | main.cpp:129-133 | after any series of samples the cache holds the last successful one, or its old value when all failed |
| `AccessSequence.MelodyCues` | main.cpp:145-151 | a melody loop sounds its tones in exactly the order of its indices and no other buzzer or motor cue |
| `AccessSequence.CountDownReversesCountUp` | main.cpp:160 | the descending loop `i = hi-1 .. lo` visits the ascending loop's indices in reverse |
| `AccessSequence.UnlockMelodyCues` | main.cpp:145-151 | the unlock melody sounds tones 0, 1, 2, 3 |
| `AccessSequence.LockMelodyCues` | main.cpp:160-166 | the lock melody sounds tones 3, 2, 1, 0 |
| `AccessSequence.LockMelodyReversesUnlock` | main.cpp:145-166 | the lock melody's indices and tones are those of the unlock melody reversed |
| `AccessSequence.OpenLatch` | main.cpp:154-157 | opening the latch leaves the motor at rest with direction forward |
| `AccessSequence.OpenLatchCues` | main.cpp:154-157 | opening issues motor forward at speed 0.3, then stop |
| `AccessSequence.CloseLatch` | main.cpp:169-171 | closing the latch leaves the motor at rest with direction backward |
| `AccessSequence.CloseLatchCues` | main.cpp:169-171 | closing issues motor backward at speed 0.3, then stop |
| `AccessSequence.Grant` | main.cpp:140-171 | the grant sequence starts with the "Unlocked" screen and leaves the motor valid and at rest |
| `AccessSequence.GrantOrder` | main.cpp:145-171 | grant cues in order: tones 0,1,2,3; motor forward, stop; tones 3,2,1,0; motor backward, stop |
| `AccessSequence.GrantTonesInTable` | main.cpp:145-161 | every tone of the grant sequence indexes the four-entry frequency table of main.cpp:97 |
| `AccessSequence.Deny` | main.cpp:173 | the deny sequence starts with the "Wrong Password" screen, shown as locked |
| `AccessSequence.DenyOrder` | main.cpp:173-181 | the deny sequence sounds exactly two buzzes and issues no motor command |
| `AccessSequence.GrantNeedsNoNeutralPause` | main.cpp:154-171 | started from a stopped motor, neither drive call of the grant sequence pauses, and the code's `backward` equals the corrected one there |
| `ControlLoop.Init` | main.cpp:98-103 | the loop starts locked, with an empty entry, no reading and the motor at rest |
| `ControlLoop.Sequence` | main.cpp:140-182 | the chosen sequence keeps the motor valid and at rest; the deny branch does not touch the motor |
| `ControlLoop.Step` | main.cpp:107-191 | one iteration keeps the state invariant (bounds, unused slots zero, motor at rest). Without a trigger, the entry is what the buttons make of it, and the lock flag and motor are unchanged. With a trigger, the entry is reset on either branch. The lock flag changes exactly when the controller was locked, the trigger fired and the entered code equals the stored one; it never goes back to locked. The cache follows the sample. The step opens with the status screen and ends with the 1 s wait |
| `ControlLoop.FramedCues` | main.cpp:185 | the status screens and waits around an access sequence add no buzzer or motor cues |
| `ControlLoop.SequenceCues` | main.cpp:140-182 | a matching code gives the grant cues, a mismatch two buzzes |
| `ControlLoop.StepCues` | main.cpp:139-182 | the step's cues are none without a trigger, the grant cues when the entered code matches, and exactly two buzzes otherwise |
| `ControlLoop.TriggerIsStrict` | main.cpp:139 | at position 50 the entry is kept and nothing sounds or moves; at 51 an access sequence runs and the entry is cleared |
| `ControlLoop.Run` | main.cpp:107-192 | any number of iterations keeps the invariant and never relocks; iterations that never trigger leave the lock flag and motor unchanged |
| `ControlLoop.RunCache` | main.cpp:129-133 | after any iterations the cache is the old cache refreshed by each iteration's sample in turn: the last successful sample, or the old cache when every sample failed |
| `ControlLoop.NeverRelocks` | main.cpp:142 | once some prefix of the iterations has unlocked the controller, it is unlocked after all of them |
| `ControlLoop.EntryAfter` | main.cpp:109-127 | the entry after a series of button iterations keeps its bounds |
| `ControlLoop.QuietRun` | main.cpp:109-136 | iterations that never trigger only feed the accumulator and keep the lock flag |
| `ControlLoop.FourPressesEnterCode` | main.cpp:114-122 | from power-up, four iterations with increment and save pressed enter 1, 2, 3, 4 and stay locked |
| `ControlLoop.SubmitStoredCode` | main.cpp:139-142 | submitting an entry equal to the stored code unlocks and runs the grant cues |
| `ControlLoop.EnterCodeAndUnlock` | main.cpp:100-171 | entering 1, 2, 3, 4 from power-up and pushing the joystick to 51 unlocks and runs the grant sequence |
| `ControlLoop.WrongCodeDenied` | main.cpp:172-181 | submitting 1, 2, 3, 5 stays locked, sounds exactly two buzzes and clears the entry |

## Findings

| source | as written | input that shows it | evidently intended | confidence | as-written member | corrected member |
|---|---|---|---|---|---|---|
| motordriver.cpp:33 | `backward` inserts the neutral pause when `_sign == MOTOR_CCW_ROTATION`, the guard copied from `forward` | `forward(0.3)` then `backward(0.3)`: the motor reverses from clockwise with no pause; `backward` twice pauses though nothing reverses | pause when `_sign == MOTOR_CW_ROTATION`, mirroring `forward`, whose guard pauses exactly when it reverses a counter-clockwise rotation | medium, not executed | `MotorDriver.BackwardAsWritten` (shown by `MotorDriver.BackwardAsWrittenSkipsReversalPause`) | `MotorDriver.Backward` (proved by `MotorDriver.PauseIffReversing`) |

The main loop uses the corrected `MotorDriver.Backward`. In the main loop,
`backward` is only called right after `stop`, so the difference never shows
there. `AccessSequence.GrantNeedsNoNeutralPause` proves that both versions
give the same result at that call.

## Left out

- Hardware peripherals: `AnalogIn`, `DigitalIn`, `DigitalOut`, `PwmOut`, `I2C`, the DHT22 driver and the SSD1306 driver are foreign code. Their readings are step inputs: button booleans already inverted from the active-low pins, the sensor sample as an `Option`, and the joystick position. Their effects are trace events.
- The `Ticker` callback and the `volatile x` shared with it (main.cpp:26-28, main.cpp:83) are concurrency. `x` is an input sampled once per step, so its initial value before the first tick and its updates during an access sequence are not modelled.
- The float conversions are left out: the truncation in `xAxis * 100` (main.cpp:38) and the `/ 10.0` of the sensor values (main.cpp:131-132). The joystick enters as the integer scaled reading and the cache keeps tenths.
- The buzzer period maths `1.0 / frequency[i]` and `period_us(3830)` become the `Tone(index)` and `Buzz` actions. The frequency table is kept as a constant, and `AccessSequence.GrantTonesInTable` shows every tone index lies within it.
- The real-time length of `wait(...)` is left out. Waits are recorded as `Wait(ms)` events, and the driver's pauses as `Pause(ms)`.
- The text layout of `displayOled` and `displayAccessStatus` is rendering. The screens are recorded with what they show. `displayOled` ignores its `locked` argument and always prints "Locked" (main.cpp:56), so the status screen action carries no lock flag.
- The initial screen of `setup()` (main.cpp:86-92) is rendering only and is not part of the trace.
- `motordriver.h` holds declarations only.
- Buttons have no debounce: a held button acts once per iteration. The model behaves the same way, since each step reads one sample of each button.
- MotorDriver.Clamp: the speed is an exact real, so a NaN speed (for which neither comparison in the C++ holds and NaN itself is written) is not modelled.
- ControlLoop.Step: the status screen records the entered buffer as four characters. The `%s` print of a full buffer reads past its end (see `CodeEntry.FullBufferUnterminated`), and what it then shows is not modelled.
