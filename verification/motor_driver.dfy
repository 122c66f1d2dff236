/** The DC motor driver: a PWM duty output, a direction output, and the
    remembered rotation sign `_sign`. Every driver operation is a pure
    transition from the old driver state to a new one, together with the
    pin-level events it produces. */
module MotorDriver {

  // Values of the rotation sign.
  const MOTOR_STOP: int := 0
  const MOTOR_CW_ROTATION: int := 1
  const MOTOR_CCW_ROTATION: int := -1

  // Levels written to the direction output.
  const FORWARD_DIR: int := 0
  const BACKWARD_DIR: int := 1

  /** PWM period set by the constructor, in microseconds (1 ms). */
  const PWM_PERIOD_US: nat := 1000
  /** Neutral pause before a drive command, in milliseconds (0.2 s). */
  const NEUTRAL_PAUSE_MS: nat := 200
  /** Settle pause of `stop`, in milliseconds (0.1 s). */
  const STOP_SETTLE_MS: nat := 100

  /** Driver state: the duty last written, the direction level, the rotation sign. */
  datatype Motor = Motor(duty: real, dir: int, sign: int)

  /** What the driver does to its pins and to time. */
  datatype MotorEvent =
    | SetPeriodUs(us: nat)
    | WriteDuty(duty: real)
    | WriteDir(level: int)
    | Pause(ms: nat)

  /** New driver state plus the events of one operation. */
  datatype MotorStep = MotorStep(motor: Motor, events: seq<MotorEvent>)

  /** The operations a caller can ask of the driver. */
  datatype Command = ForwardCmd(speed: real) | BackwardCmd(speed: real) | StopCmd

  predicate ValidSign(sign: int) {
    sign == MOTOR_STOP || sign == MOTOR_CW_ROTATION || sign == MOTOR_CCW_ROTATION
  }

  /** The state invariant every operation keeps. */
  predicate Valid(m: Motor) {
    && ValidSign(m.sign)
    && (m.dir == FORWARD_DIR || m.dir == BACKWARD_DIR)
    && 0.0 <= m.duty <= 1.0
  }

  /** Not turning and no power applied. */
  predicate AtRest(m: Motor) {
    m.sign == MOTOR_STOP && m.duty == 0.0
  }

  /** A drive command from sign `from` to sign `to` turns the motor round. */
  predicate Reverses(from: int, to: int) {
    from != MOTOR_STOP && from == -to
  }

  /** The events of an operation contain the 0.2 s neutral pause. */
  predicate HasNeutralPause(events: seq<MotorEvent>) {
    Pause(NEUTRAL_PAUSE_MS) in events
  }

  function Dist(a: real, b: real): real {
    if a <= b then b - a else a - b
  }

  /** The duty actually applied for a requested speed: the point of [0,1]
      nearest to the request. */
  function Clamp(speed: real): (d: real)
    ensures 0.0 <= d <= 1.0
    ensures forall y :: 0.0 <= y <= 1.0 ==> Dist(d, speed) <= Dist(y, speed)
  {
    if speed < 0.0 then 0.0 else if speed > 1.0 then 1.0 else speed
  }

  /** The pause inserted before a drive command. */
  function NeutralPause(): seq<MotorEvent> {
    [WriteDuty(0.0), Pause(NEUTRAL_PAUSE_MS)]
  }

  /** The constructor: 1 ms PWM period, duty 0, forward direction, stopped. */
  function Create(): (r: MotorStep)
    ensures r.motor.duty == 0.0 && r.motor.dir == FORWARD_DIR && r.motor.sign == MOTOR_STOP
    ensures Valid(r.motor) && AtRest(r.motor)
    ensures |r.events| > 0 && r.events[0] == SetPeriodUs(PWM_PERIOD_US)
    ensures !HasNeutralPause(r.events)
  {
    MotorStep(Motor(0.0, FORWARD_DIR, MOTOR_STOP),
              [SetPeriodUs(PWM_PERIOD_US), WriteDuty(0.0), WriteDir(FORWARD_DIR)])
  }

  /** `forward(speed)`: pause only when the motor was turning counter-clockwise,
      then drive clockwise at the clamped speed. */
  function Forward(m: Motor, speed: real): (r: MotorStep)
    ensures r.motor.sign == MOTOR_CW_ROTATION && r.motor.dir == FORWARD_DIR
    ensures r.motor.duty == Clamp(speed) && Valid(r.motor)
    ensures HasNeutralPause(r.events) <==> m.sign == MOTOR_CCW_ROTATION
    ensures |r.events| >= 2 && r.events[|r.events| - 1] == WriteDuty(r.motor.duty)
    ensures HasNeutralPause(r.events) ==> r.events[..2] == NeutralPause()
    ensures r.events[|r.events| - 2] == WriteDir(FORWARD_DIR)
  {
    var pause := if m.sign == MOTOR_CCW_ROTATION then NeutralPause() else [];
    MotorStep(Motor(Clamp(speed), FORWARD_DIR, MOTOR_CW_ROTATION),
              pause + [WriteDir(FORWARD_DIR), WriteDuty(Clamp(speed))])
  }

  /** `backward(speed)` exactly as the driver writes it: the pause guard tests
      for counter-clockwise rotation, the direction it is about to drive in. */
  function BackwardAsWritten(m: Motor, speed: real): (r: MotorStep)
    ensures r.motor.sign == MOTOR_CCW_ROTATION && r.motor.dir == BACKWARD_DIR
    ensures r.motor.duty == Clamp(speed) && Valid(r.motor)
    ensures HasNeutralPause(r.events) <==> m.sign == MOTOR_CCW_ROTATION
    ensures |r.events| >= 2 && r.events[|r.events| - 1] == WriteDuty(r.motor.duty)
    ensures HasNeutralPause(r.events) ==> r.events[..2] == NeutralPause()
    ensures r.events[|r.events| - 2] == WriteDir(BACKWARD_DIR)
  {
    var pause := if m.sign == MOTOR_CCW_ROTATION then NeutralPause() else [];
    MotorStep(Motor(Clamp(speed), BACKWARD_DIR, MOTOR_CCW_ROTATION),
              pause + [WriteDir(BACKWARD_DIR), WriteDuty(Clamp(speed))])
  }

  /** `backward(speed)` as `forward` mirrors it: pause only when the motor was
      turning clockwise, i.e. when the command reverses it. */
  function Backward(m: Motor, speed: real): (r: MotorStep)
    ensures r.motor.sign == MOTOR_CCW_ROTATION && r.motor.dir == BACKWARD_DIR
    ensures r.motor.duty == Clamp(speed) && Valid(r.motor)
    ensures HasNeutralPause(r.events) <==> Reverses(m.sign, MOTOR_CCW_ROTATION)
    ensures |r.events| >= 2 && r.events[|r.events| - 1] == WriteDuty(r.motor.duty)
    ensures HasNeutralPause(r.events) ==> r.events[..2] == NeutralPause()
    ensures r.events[|r.events| - 2] == WriteDir(BACKWARD_DIR)
  {
    var pause := if m.sign == MOTOR_CW_ROTATION then NeutralPause() else [];
    MotorStep(Motor(Clamp(speed), BACKWARD_DIR, MOTOR_CCW_ROTATION),
              pause + [WriteDir(BACKWARD_DIR), WriteDuty(Clamp(speed))])
  }

  /** `stop()`: duty 0, a 0.1 s settle, sign stopped; the direction level stays. */
  function Stop(m: Motor): (r: MotorStep)
    ensures r.motor.duty == 0.0 && r.motor.sign == MOTOR_STOP && r.motor.dir == m.dir
    ensures AtRest(r.motor) && (Valid(m) ==> Valid(r.motor))
    ensures !HasNeutralPause(r.events)
    ensures |r.events| > 0 && r.events[0] == WriteDuty(0.0)
  {
    MotorStep(Motor(0.0, m.dir, MOTOR_STOP), [WriteDuty(0.0), Pause(STOP_SETTLE_MS)])
  }

  /** The sign a command leaves behind. */
  function SignAfter(c: Command): int {
    match c
    case ForwardCmd(_) => MOTOR_CW_ROTATION
    case BackwardCmd(_) => MOTOR_CCW_ROTATION
    case StopCmd => MOTOR_STOP
  }

  /** Dispatches one command to the driver as written. */
  function Execute(m: Motor, c: Command): (r: MotorStep)
    ensures r.motor.sign == SignAfter(c)
    ensures Valid(m) ==> Valid(r.motor)
  {
    match c
    case ForwardCmd(speed) => Forward(m, speed)
    case BackwardCmd(speed) => BackwardAsWritten(m, speed)
    case StopCmd => Stop(m)
  }

  /** Runs a sequence of commands from state `m`. */
  function Replay(m: Motor, cmds: seq<Command>): (r: Motor)
    requires Valid(m)
    ensures Valid(r)
    ensures cmds == [] ==> r == m
    ensures cmds != [] ==> r.sign == SignAfter(cmds[|cmds| - 1])
    decreases |cmds|
  {
    if cmds == [] then m else Replay(Execute(m, cmds[0]).motor, cmds[1..])
  }

  /** Any command sequence after construction keeps the sign in {-1, 0, 1}
      and the duty in [0, 1]. */
  lemma SignStaysValid(cmds: seq<Command>)
    ensures ValidSign(Replay(Create().motor, cmds).sign)
    ensures 0.0 <= Replay(Create().motor, cmds).duty <= 1.0
  {
  }

  /** With the corrected `backward`, both drive commands pause exactly when
      they turn the motor round. */
  lemma PauseIffReversing(m: Motor, speed: real)
    requires ValidSign(m.sign)
    ensures HasNeutralPause(Forward(m, speed).events) <==> Reverses(m.sign, MOTOR_CW_ROTATION)
    ensures HasNeutralPause(Backward(m, speed).events) <==> Reverses(m.sign, MOTOR_CCW_ROTATION)
  {
  }

  /** The driver as written reverses from clockwise to counter-clockwise with
      no neutral pause, and pauses when asked to keep turning counter-clockwise. */
  lemma BackwardAsWrittenSkipsReversalPause()
    ensures var turning := Forward(Create().motor, 0.3).motor;
            Reverses(turning.sign, MOTOR_CCW_ROTATION)
            && !HasNeutralPause(BackwardAsWritten(turning, 0.3).events)
            && HasNeutralPause(Backward(turning, 0.3).events)
    ensures var reversing := BackwardAsWritten(Create().motor, 0.3).motor;
            !Reverses(reversing.sign, MOTOR_CCW_ROTATION)
            && HasNeutralPause(BackwardAsWritten(reversing, 0.3).events)
  {
  }

  /** From a stopped motor the two versions of `backward` cannot be told apart. */
  lemma BackwardVersionsAgreeWhenStopped(m: Motor, speed: real)
    requires m.sign == MOTOR_STOP
    ensures BackwardAsWritten(m, speed) == Backward(m, speed)
  {
  }

  /** The two versions of `backward` differ only in their events: the end
      state is the same from every starting state. */
  lemma BackwardVersionsSameState(m: Motor, speed: real)
    ensures BackwardAsWritten(m, speed).motor == Backward(m, speed).motor
  {
  }

  /** `forward` and `backward` apply the same duty for the same requested
      speed, whatever state either starts from. */
  lemma SameDutyBothDirections(m: Motor, m': Motor, speed: real)
    ensures BackwardAsWritten(m, speed).motor.duty == Forward(m', speed).motor.duty
    ensures 0.0 <= Forward(m', speed).motor.duty <= 1.0
  {
  }
}
