/** The two actuation sequences run when the code is submitted: the grant
    sequence (unlock melody, open the latch, dwell, lock melody, close the
    latch) and the deny sequence (two buzzes and a cool-down). Hardware effects
    are recorded as an action trace. */
module AccessSequence {
  import opened Wrappers
  import Environment
  import MotorDriver

  /** Buzzer frequencies in hertz, indexed by the melody loops. */
  const FREQUENCIES_HZ: seq<real> := [659.26, 440.00, 392.00, 493.88]
  const MELODY_LENGTH: int := 4
  const BUZZ_COUNT: int := 2

  // Durations in milliseconds.
  const TONE_MS: nat := 500
  const GAP_MS: nat := 200
  const BUZZ_MS: nat := 200
  const MOTOR_RUN_MS: nat := 1500
  const DWELL_MS: nat := 30000
  const COOLDOWN_MS: nat := 3000

  /** Latch motor speed, as a fraction of full power. */
  const DOOR_SPEED: real := 0.3

  const UNLOCKED_MESSAGE: string := "Unlocked"
  const WRONG_MESSAGE: string := "Wrong Password"

  /** One observable effect of the main loop. */
  datatype Action =
    | StatusScreen(code: seq<char>, count: int, env: Option<Environment.Reading>)  // always reads "Locked"
    | AccessScreen(message: string, locked: bool)
    | Tone(index: int)                   // period 1 / FREQUENCIES_HZ[index], duty 0.5
    | Buzz                               // period 3830 us, duty 0.5
    | Silence                            // duty 0
    | Drive(command: MotorDriver.Command, effect: seq<MotorDriver.MotorEvent>)
    | Wait(ms: nat)

  /** The audible and mechanical part of an action, without screens and waits. */
  datatype Cue = CueTone(index: int) | CueBuzz | CueMotor(command: MotorDriver.Command)

  /** Result of an actuation sequence: the motor state after it and its trace. */
  datatype Actuation = Actuation(motor: MotorDriver.Motor, actions: seq<Action>)

  function CueOf(a: Action): seq<Cue> {
    match a
    case Tone(i) => [CueTone(i)]
    case Buzz => [CueBuzz]
    case Drive(c, _) => [CueMotor(c)]
    case _ => []
  }

  /** The cues of a trace, in order. */
  function Cues(trace: seq<Action>): seq<Cue>
    decreases |trace|
  {
    if trace == [] then [] else CueOf(trace[0]) + Cues(trace[1..])
  }

  lemma {:induction false} CuesAppend(a: seq<Action>, b: seq<Action>)
    ensures Cues(a + b) == Cues(a) + Cues(b)
    decreases |a|
  {
    if a == [] {
      assert a + b == b;
    } else {
      assert (a + b)[0] == a[0];
      assert (a + b)[1..] == a[1..] + b;
      CuesAppend(a[1..], b);
    }
  }

  /** Loop indices of `for (i = lo; i < hi; i++)`. */
  function CountUp(lo: int, hi: int): seq<int>
    decreases hi - lo
  {
    if lo >= hi then [] else [lo] + CountUp(lo + 1, hi)
  }

  /** Loop indices of `for (i = hi; i >= lo; i--)`. */
  function CountDown(hi: int, lo: int): seq<int>
    decreases hi - lo + 1
  {
    if hi < lo then [] else [hi] + CountDown(hi - 1, lo)
  }

  function Reverse<T>(s: seq<T>): (r: seq<T>)
    ensures |r| == |s|
    ensures forall k :: 0 <= k < |s| ==> r[k] == s[|s| - 1 - k]
    decreases |s|
  {
    if s == [] then [] else Reverse(s[1..]) + [s[0]]
  }

  lemma {:induction false} CountDownSplitLast(hi: int, lo: int)
    requires lo <= hi
    ensures CountDown(hi, lo) == CountDown(hi, lo + 1) + [lo]
    decreases hi - lo
  {
    if hi > lo {
      CountDownSplitLast(hi - 1, lo);
    }
  }

  /** Counting down from `hi - 1` visits the indices of counting up to `hi`
      in reverse. */
  lemma {:induction false} CountDownReversesCountUp(lo: int, hi: int)
    ensures CountDown(hi - 1, lo) == Reverse(CountUp(lo, hi))
    decreases hi - lo
  {
    if lo < hi {
      var up := CountUp(lo, hi);
      assert up[0] == lo && up[1..] == CountUp(lo + 1, hi);
      CountDownReversesCountUp(lo + 1, hi);
      CountDownSplitLast(hi - 1, lo);
    }
  }

  /** One melody note: tone on for 0.5 s, then silence for 0.2 s. */
  function Note(i: int): seq<Action> {
    [Tone(i), Wait(TONE_MS), Silence, Wait(GAP_MS)]
  }

  /** The notes of a melody, played in the order of `order`. */
  function Melody(order: seq<int>): seq<Action>
    decreases |order|
  {
    if order == [] then [] else Note(order[0]) + Melody(order[1..])
  }

  function ToneCues(order: seq<int>): (r: seq<Cue>)
    ensures |r| == |order|
    ensures forall k :: 0 <= k < |order| ==> r[k] == CueTone(order[k])
    decreases |order|
  {
    if order == [] then [] else [CueTone(order[0])] + ToneCues(order[1..])
  }

  lemma CuesCons(a: Action, rest: seq<Action>)
    ensures Cues([a] + rest) == CueOf(a) + Cues(rest)
  {
    assert ([a] + rest)[1..] == rest;
  }

  /** A note sounds its tone and nothing else. */
  lemma NoteCues(i: int)
    ensures Cues(Note(i)) == [CueTone(i)]
  {
    CuesCons(Wait(GAP_MS), []);
    CuesCons(Silence, [Wait(GAP_MS)]);
    CuesCons(Wait(TONE_MS), [Silence, Wait(GAP_MS)]);
    CuesCons(Tone(i), [Wait(TONE_MS), Silence, Wait(GAP_MS)]);
  }

  /** A melody sounds its tones in exactly the given order, and nothing else. */
  lemma {:induction false} MelodyCues(order: seq<int>)
    ensures Cues(Melody(order)) == ToneCues(order)
    decreases |order|
  {
    if order != [] {
      CuesAppend(Note(order[0]), Melody(order[1..]));
      MelodyCues(order[1..]);
      NoteCues(order[0]);
    }
  }

  function UnlockMelody(): seq<Action> {
    Melody(CountUp(0, MELODY_LENGTH))
  }

  function LockMelody(): seq<Action> {
    Melody(CountDown(MELODY_LENGTH - 1, 0))
  }

  lemma UnlockMelodyCues()
    ensures Cues(UnlockMelody()) == [CueTone(0), CueTone(1), CueTone(2), CueTone(3)]
  {
    MelodyCues(CountUp(0, MELODY_LENGTH));
  }

  lemma LockMelodyCues()
    ensures Cues(LockMelody()) == [CueTone(3), CueTone(2), CueTone(1), CueTone(0)]
  {
    MelodyCues(CountDown(MELODY_LENGTH - 1, 0));
  }

  /** The lock melody's loop visits the unlock melody's indices in reverse
      order, so it sounds the same tones backwards. */
  lemma LockMelodyReversesUnlock()
    ensures CountDown(MELODY_LENGTH - 1, 0) == Reverse(CountUp(0, MELODY_LENGTH))
    ensures Cues(LockMelody()) == Reverse(Cues(UnlockMelody()))
  {
    CountDownReversesCountUp(0, MELODY_LENGTH);
    UnlockMelodyCues();
    LockMelodyCues();
    var cuesUp := [CueTone(0), CueTone(1), CueTone(2), CueTone(3)];
    assert cuesUp[1..][1..][1..][1..] == [];
    assert cuesUp[1..][1..][1..] == [CueTone(3)];
    assert cuesUp[1..][1..] == [CueTone(2), CueTone(3)];
    assert cuesUp[1..] == [CueTone(1), CueTone(2), CueTone(3)];
  }

  /** Open the latch: forward at the door speed for 1.5 s, stop, then dwell 30 s. */
  function OpenLatch(m: MotorDriver.Motor): (r: Actuation)
    ensures MotorDriver.AtRest(r.motor) && r.motor.dir == MotorDriver.FORWARD_DIR
  {
    var opening := MotorDriver.Forward(m, DOOR_SPEED);
    var halted := MotorDriver.Stop(opening.motor);
    Actuation(halted.motor,
              [ Drive(MotorDriver.ForwardCmd(DOOR_SPEED), opening.events), Wait(MOTOR_RUN_MS)
              , Drive(MotorDriver.StopCmd, halted.events), Wait(DWELL_MS) ])
  }

  /** Close the latch: backward at the door speed for 1.5 s, then stop. */
  function CloseLatch(m: MotorDriver.Motor): (r: Actuation)
    ensures MotorDriver.AtRest(r.motor) && r.motor.dir == MotorDriver.BACKWARD_DIR
  {
    var closing := MotorDriver.Backward(m, DOOR_SPEED);
    var parked := MotorDriver.Stop(closing.motor);
    Actuation(parked.motor,
              [ Drive(MotorDriver.BackwardCmd(DOOR_SPEED), closing.events), Wait(MOTOR_RUN_MS)
              , Drive(MotorDriver.StopCmd, parked.events) ])
  }

  /** The grant sequence, starting from motor state `m`. */
  function Grant(m: MotorDriver.Motor): (r: Actuation)
    ensures MotorDriver.AtRest(r.motor) && MotorDriver.Valid(r.motor)
    ensures |r.actions| > 0 && r.actions[0] == AccessScreen(UNLOCKED_MESSAGE, false)
  {
    var openPart := OpenLatch(m);
    var closePart := CloseLatch(openPart.motor);
    Actuation(closePart.motor,
              [AccessScreen(UNLOCKED_MESSAGE, false)] + UnlockMelody() + openPart.actions
              + LockMelody() + closePart.actions)
  }

  /** The order of the grant sequence's tones and motor commands. */
  function GrantCues(): seq<Cue> {
    [ CueTone(0), CueTone(1), CueTone(2), CueTone(3)
    , CueMotor(MotorDriver.ForwardCmd(DOOR_SPEED)), CueMotor(MotorDriver.StopCmd)
    , CueTone(3), CueTone(2), CueTone(1), CueTone(0)
    , CueMotor(MotorDriver.BackwardCmd(DOOR_SPEED)), CueMotor(MotorDriver.StopCmd) ]
  }

  lemma OpenLatchCues(m: MotorDriver.Motor)
    ensures Cues(OpenLatch(m).actions) == [CueMotor(MotorDriver.ForwardCmd(DOOR_SPEED)), CueMotor(MotorDriver.StopCmd)]
  {
    var a := OpenLatch(m).actions;
    CuesCons(a[3], []);
    CuesCons(a[2], [a[3]]);
    CuesCons(a[1], a[2..]);
    CuesCons(a[0], a[1..]);
    assert a == [a[0]] + a[1..] && a[1..] == [a[1]] + a[2..] && a[2..] == [a[2]] + [a[3]];
  }

  lemma CloseLatchCues(m: MotorDriver.Motor)
    ensures Cues(CloseLatch(m).actions) == [CueMotor(MotorDriver.BackwardCmd(DOOR_SPEED)), CueMotor(MotorDriver.StopCmd)]
  {
    var a := CloseLatch(m).actions;
    CuesCons(a[2], []);
    CuesCons(a[1], [a[2]]);
    CuesCons(a[0], a[1..]);
    assert a == [a[0]] + a[1..] && a[1..] == [a[1]] + [a[2]];
  }

  lemma CuesAppendThree(a: seq<Action>, b: seq<Action>, c: seq<Action>)
    ensures Cues(a + b + c) == Cues(a) + Cues(b) + Cues(c)
  {
    CuesAppend(a + b, c);
    CuesAppend(a, b);
  }

  lemma {:induction false} CuesAppendFive(a: seq<Action>, b: seq<Action>, c: seq<Action>, d: seq<Action>, e: seq<Action>)
    ensures Cues(a + b + c + d + e) == Cues(a) + Cues(b) + Cues(c) + Cues(d) + Cues(e)
  {
    CuesAppend(a + b + c + d, e);
    CuesAppend(a + b + c, d);
    CuesAppend(a + b, c);
    CuesAppend(a, b);
  }

  lemma GrantCuesFromParts(head: seq<Action>, up: seq<Action>, openActs: seq<Action>,
                           down: seq<Action>, closeActs: seq<Action>)
    requires Cues(head) == []
    requires Cues(up) == [CueTone(0), CueTone(1), CueTone(2), CueTone(3)]
    requires Cues(openActs) == [CueMotor(MotorDriver.ForwardCmd(DOOR_SPEED)), CueMotor(MotorDriver.StopCmd)]
    requires Cues(down) == [CueTone(3), CueTone(2), CueTone(1), CueTone(0)]
    requires Cues(closeActs) == [CueMotor(MotorDriver.BackwardCmd(DOOR_SPEED)), CueMotor(MotorDriver.StopCmd)]
    ensures Cues(head + up + openActs + down + closeActs) == GrantCues()
  {
    CuesAppendFive(head, up, openActs, down, closeActs);
    GrantCuesSplit();
  }

  lemma GrantCuesSplit()
    ensures GrantCues()
         == [] + [CueTone(0), CueTone(1), CueTone(2), CueTone(3)]
            + [CueMotor(MotorDriver.ForwardCmd(DOOR_SPEED)), CueMotor(MotorDriver.StopCmd)]
            + [CueTone(3), CueTone(2), CueTone(1), CueTone(0)]
            + [CueMotor(MotorDriver.BackwardCmd(DOOR_SPEED)), CueMotor(MotorDriver.StopCmd)]
  {
  }

  /** Grant: tones 0..3, open and stop, tones 3..0, close and stop. */
  lemma GrantOrder(m: MotorDriver.Motor)
    ensures Cues(Grant(m).actions) == GrantCues()
  {
    var openPart := OpenLatch(m);
    var closePart := CloseLatch(openPart.motor);
    var head := [AccessScreen(UNLOCKED_MESSAGE, false)];
    CuesCons(head[0], []);
    UnlockMelodyCues();
    LockMelodyCues();
    OpenLatchCues(m);
    CloseLatchCues(openPart.motor);
    GrantCuesFromParts(head, UnlockMelody(), openPart.actions, LockMelody(), closePart.actions);
  }

  /** One buzz of the deny sequence: buzz for 0.2 s, then silence for 0.2 s. */
  function BuzzNote(): seq<Action> {
    [Buzz, Wait(BUZZ_MS), Silence, Wait(BUZZ_MS)]
  }

  /** The buzz loop `for (i = i0; i < n; i++)` of the deny sequence. */
  function BuzzLoop(i: int, n: int): seq<Action>
    decreases n - i
  {
    if i >= n then [] else BuzzNote() + BuzzLoop(i + 1, n)
  }

  /** The deny sequence. */
  function Deny(): (r: seq<Action>)
    ensures |r| > 0 && r[0] == AccessScreen(WRONG_MESSAGE, true)
  {
    [AccessScreen(WRONG_MESSAGE, true)] + BuzzLoop(0, BUZZ_COUNT) + [Wait(COOLDOWN_MS)]
  }

  lemma BuzzNoteCues()
    ensures Cues(BuzzNote()) == [CueBuzz]
  {
    CuesCons(Wait(BUZZ_MS), []);
    CuesCons(Silence, [Wait(BUZZ_MS)]);
    CuesCons(Wait(BUZZ_MS), [Silence, Wait(BUZZ_MS)]);
    CuesCons(Buzz, [Wait(BUZZ_MS), Silence, Wait(BUZZ_MS)]);
  }

  /** The buzz loop from `i` to `n` sounds one buzz per iteration and nothing else. */
  lemma {:induction false} BuzzLoopCues(i: int, n: int)
    requires i <= n
    ensures |Cues(BuzzLoop(i, n))| == n - i
    ensures forall k :: 0 <= k < n - i ==> Cues(BuzzLoop(i, n))[k] == CueBuzz
    decreases n - i
  {
    if i < n {
      CuesAppend(BuzzNote(), BuzzLoop(i + 1, n));
      BuzzNoteCues();
      BuzzLoopCues(i + 1, n);
    }
  }

  /** Deny: exactly two buzzes, and no motor command. */
  lemma DenyOrder()
    ensures Cues(Deny()) == [CueBuzz, CueBuzz]
    ensures forall k :: 0 <= k < |Deny()| ==> !Deny()[k].Drive?
  {
    var loop := BuzzLoop(0, BUZZ_COUNT);
    CuesAppendThree([AccessScreen(WRONG_MESSAGE, true)], loop, [Wait(COOLDOWN_MS)]);
    CuesCons(AccessScreen(WRONG_MESSAGE, true), []);
    CuesCons(Wait(COOLDOWN_MS), []);
    BuzzLoopCues(0, BUZZ_COUNT);
    assert loop == BuzzNote() + (BuzzNote() + []);
  }

  /** Every tone the grant sequence sounds indexes the frequency table. */
  lemma GrantTonesInTable(m: MotorDriver.Motor)
    ensures forall k :: 0 <= k < |Cues(Grant(m).actions)| && Cues(Grant(m).actions)[k].CueTone? ==>
              0 <= Cues(Grant(m).actions)[k].index < |FREQUENCIES_HZ|
  {
    GrantOrder(m);
  }

  /** Started from a stopped motor, the grant sequence never needs the
      driver's neutral pause, so the two versions of `backward` agree on it. */
  lemma GrantNeedsNoNeutralPause(m: MotorDriver.Motor)
    requires m.sign == MotorDriver.MOTOR_STOP
    ensures !MotorDriver.HasNeutralPause(MotorDriver.Forward(m, DOOR_SPEED).events)
    ensures var halted := OpenLatch(m).motor;
            && !MotorDriver.HasNeutralPause(MotorDriver.Backward(halted, DOOR_SPEED).events)
            && MotorDriver.BackwardAsWritten(halted, DOOR_SPEED) == MotorDriver.Backward(halted, DOOR_SPEED)
  {
  }
}
