/** One iteration of the controller's main loop as a pure step: read the
    three buttons into the code-entry accumulator, refresh the environment
    cache, show the status screen, and when the joystick position is above the
    threshold check the entered code, run the grant or deny sequence and reset
    the entry. Each step ends with the loop's 1 s wait. */
module ControlLoop {
  import opened Wrappers
  import Environment
  import MotorDriver
  import CodeEntry
  import Joystick
  import opened AccessSequence

  /** Trailing wait of every iteration, in milliseconds. */
  const LOOP_MS: nat := 1000

  /** The main loop's state: code entry, lock flag, environment cache and the
      latch motor driver. */
  datatype State = State(
    entry: CodeEntry.Entry,
    locked: bool,
    env: Option<Environment.Reading>,
    motor: MotorDriver.Motor)

  /** What one iteration reads: the three buttons (pressed or not), the sensor
      sample (None when not ready) and the joystick position. */
  datatype Inputs = Inputs(inc: bool, save: bool, dec: bool, sample: Option<Environment.Reading>, x: int)

  datatype StepResult = StepResult(state: State, trace: seq<Action>)

  /** Between iterations the entry keeps its bounds and the latch motor is
      stopped with no power applied. */
  predicate Valid(s: State) {
    && CodeEntry.Valid(s.entry)
    && MotorDriver.Valid(s.motor)
    && MotorDriver.AtRest(s.motor)
  }

  /** The state on entering the loop: locked, empty entry, no reading yet. */
  function Init(): (s: State)
    ensures Valid(s) && s.locked && s.env.None?
    ensures s.entry.pcount == 0 && s.entry.passwordIndex == 0
  {
    State(CodeEntry.Empty(), true, None, MotorDriver.Create().motor)
  }

  /** The checked code and its outcome actions for one triggered iteration. */
  function Sequence(motor: MotorDriver.Motor, granted: bool): (r: Actuation)
    ensures MotorDriver.AtRest(motor) ==> MotorDriver.AtRest(r.motor)
    ensures MotorDriver.Valid(motor) ==> MotorDriver.Valid(r.motor)
    ensures !granted ==> r.motor == motor
  {
    if granted then Grant(motor) else Actuation(motor, Deny())
  }

  /** One iteration of the main loop. */
  function Step(s: State, inp: Inputs): (r: StepResult)
    requires Valid(s)
    ensures Valid(r.state)
    ensures inp.sample.None? ==> r.state.env == s.env
    ensures inp.sample.Some? ==> r.state.env == inp.sample
    ensures !Joystick.Triggers(inp.x) ==>
              && r.state.entry == CodeEntry.Accumulate(s.entry, inp.inc, inp.save, inp.dec)
              && r.state.locked == s.locked
              && r.state.motor == s.motor
    ensures Joystick.Triggers(inp.x) ==> r.state.entry == CodeEntry.Empty()
    ensures r.state.locked != s.locked <==>
              && s.locked
              && Joystick.Triggers(inp.x)
              && CodeEntry.Accumulate(s.entry, inp.inc, inp.save, inp.dec).input == CodeEntry.SAVED_PASSWORD
    ensures !s.locked ==> !r.state.locked
    ensures |r.trace| >= 2 && r.trace[|r.trace| - 1] == Wait(LOOP_MS)
    ensures r.trace[0].StatusScreen?
  {
    var entry := CodeEntry.Accumulate(s.entry, inp.inc, inp.save, inp.dec);
    var env := Environment.Refresh(s.env, inp.sample);
    var status := StatusScreen(entry.input, entry.pcount, env);
    if Joystick.Triggers(inp.x) then
      var granted := CodeEntry.CheckPassword(CodeEntry.SAVED_PASSWORD, entry.input);
      var outcome := Sequence(s.motor, granted);
      var locked := if granted then false else s.locked;
      StepResult(State(CodeEntry.Empty(), locked, env, outcome.motor),
                 [status] + outcome.actions + [status, Wait(LOOP_MS)])
    else
      StepResult(State(entry, s.locked, env, s.motor), [status, Wait(LOOP_MS)])
  }

  /** Status screens and waits around an actuation add no cues. */
  lemma FramedCues(status: Action, middle: seq<Action>)
    requires status.StatusScreen?
    ensures Cues([status] + middle + [status, Wait(LOOP_MS)]) == Cues(middle)
    ensures Cues([status, Wait(LOOP_MS)]) == []
  {
    CuesCons(Wait(LOOP_MS), []);
    CuesCons(status, [Wait(LOOP_MS)]);
    CuesCons(status, []);
    CuesAppendThree([status], middle, [status, Wait(LOOP_MS)]);
  }

  lemma SequenceCues(motor: MotorDriver.Motor, granted: bool)
    ensures Cues(Sequence(motor, granted).actions) == if granted then GrantCues() else [CueBuzz, CueBuzz]
  {
    if granted {
      GrantOrder(motor);
    } else {
      DenyOrder();
    }
  }

  /** The step's tones and motor commands: those of the grant sequence when
      the entered code matches, two buzzes when it does not, and none when the
      joystick does not trigger. */
  lemma StepCues(s: State, inp: Inputs)
    requires Valid(s)
    ensures var entry := CodeEntry.Accumulate(s.entry, inp.inc, inp.save, inp.dec);
            Cues(Step(s, inp).trace)
              == if !Joystick.Triggers(inp.x) then []
                 else if entry.input == CodeEntry.SAVED_PASSWORD then GrantCues()
                 else [CueBuzz, CueBuzz]
  {
    var entry := CodeEntry.Accumulate(s.entry, inp.inc, inp.save, inp.dec);
    var env := Environment.Refresh(s.env, inp.sample);
    var status := StatusScreen(entry.input, entry.pcount, env);
    var granted := CodeEntry.CheckPassword(CodeEntry.SAVED_PASSWORD, entry.input);
    var outcome := Sequence(s.motor, granted);
    FramedCues(status, outcome.actions);
    SequenceCues(s.motor, granted);
  }

  /** The trigger is strict: at position 50 the entry is kept and no access
      sequence runs; at 51 one runs and the entry is cleared. */
  lemma TriggerIsStrict(s: State, inc: bool, save: bool, dec: bool, sample: Option<Environment.Reading>)
    requires Valid(s)
    ensures var r := Step(s, Inputs(inc, save, dec, sample, 50));
            && r.state.entry == CodeEntry.Accumulate(s.entry, inc, save, dec)
            && Cues(r.trace) == []
    ensures var r := Step(s, Inputs(inc, save, dec, sample, 51));
            && r.state.entry == CodeEntry.Empty()
            && Cues(r.trace) != []
  {
    StepCues(s, Inputs(inc, save, dec, sample, 50));
    StepCues(s, Inputs(inc, save, dec, sample, 51));
  }

  /** Iterations of the main loop, one per input, with their traces joined. */
  function Run(s: State, inputs: seq<Inputs>): (r: StepResult)
    requires Valid(s)
    ensures Valid(r.state)
    ensures !s.locked ==> !r.state.locked
    ensures (forall k :: 0 <= k < |inputs| ==> !Joystick.Triggers(inputs[k].x)) ==>
              r.state.locked == s.locked && r.state.motor == s.motor
    decreases |inputs|
  {
    if inputs == [] then StepResult(s, [])
    else
      var first := Step(s, inputs[0]);
      var rest := Run(first.state, inputs[1..]);
      StepResult(rest.state, first.trace + rest.trace)
  }

  /** The sensor samples of a series of iterations. */
  function Samples(inputs: seq<Inputs>): (r: seq<Option<Environment.Reading>>)
    ensures |r| == |inputs|
    ensures forall k :: 0 <= k < |inputs| ==> r[k] == inputs[k].sample
    decreases |inputs|
  {
    if inputs == [] then [] else [inputs[0].sample] + Samples(inputs[1..])
  }

  /** After any iterations the cache is the refresh of the old cache by
      each iteration's sample in turn, so it holds the last successful sample,
      or the old cache when every sample failed. */
  lemma {:induction false} RunCache(s: State, inputs: seq<Inputs>)
    requires Valid(s)
    ensures Run(s, inputs).state.env == Environment.RefreshAll(s.env, Samples(inputs))
    ensures var last := Environment.LastSuccess(Samples(inputs));
            Run(s, inputs).state.env == if last.Some? then last else s.env
    decreases |inputs|
  {
    if inputs != [] {
      RunCache(Step(s, inputs[0]).state, inputs[1..]);
      assert Samples(inputs)[0] == inputs[0].sample;
      assert Samples(inputs)[1..] == Samples(inputs[1..]);
    }
    Environment.CacheHoldsLastSuccess(s.env, Samples(inputs));
  }

  /** Once unlocked, no sequence of iterations locks the controller again. */
  lemma {:induction false} NeverRelocks(s: State, inputs: seq<Inputs>, k: nat)
    requires Valid(s) && k <= |inputs|
    requires !Run(s, inputs[..k]).state.locked
    ensures !Run(s, inputs).state.locked
  {
    RunSplit(s, inputs, k);
  }

  /** Running a prefix and then the rest is running the whole input. */
  lemma {:induction false} RunSplit(s: State, inputs: seq<Inputs>, k: nat)
    requires Valid(s) && k <= |inputs|
    ensures Run(s, inputs).state == Run(Run(s, inputs[..k]).state, inputs[k..]).state
    decreases k
  {
    if k == 0 {
      assert inputs[..0] == [];
      assert inputs[0..] == inputs;
    } else {
      var first := Step(s, inputs[0]).state;
      RunSplit(first, inputs[1..], k - 1);
      assert inputs[..k][0] == inputs[0];
      assert inputs[..k][1..] == inputs[1..][..k - 1];
      assert inputs[1..][k - 1..] == inputs[k..];
    }
  }

  /** The entry after the buttons of a series of iterations, none of which
      triggers. */
  function EntryAfter(e: CodeEntry.Entry, inputs: seq<Inputs>): (r: CodeEntry.Entry)
    requires CodeEntry.Valid(e)
    ensures CodeEntry.Valid(r)
    decreases |inputs|
  {
    if inputs == [] then e
    else EntryAfter(CodeEntry.Accumulate(e, inputs[0].inc, inputs[0].save, inputs[0].dec), inputs[1..])
  }

  /** Iterations that do not trigger only feed the accumulator and keep the
      lock flag. */
  lemma {:induction false} QuietRun(s: State, inputs: seq<Inputs>)
    requires Valid(s)
    requires forall k :: 0 <= k < |inputs| ==> !Joystick.Triggers(inputs[k].x)
    ensures Run(s, inputs).state.entry == EntryAfter(s.entry, inputs)
    ensures Run(s, inputs).state.locked == s.locked
    decreases |inputs|
  {
    if inputs != [] {
      QuietRun(Step(s, inputs[0]).state, inputs[1..]);
    }
  }

  lemma EntryAfterCons(e: CodeEntry.Entry, a: Inputs, rest: seq<Inputs>)
    requires CodeEntry.Valid(e)
    ensures EntryAfter(e, [a] + rest) == EntryAfter(CodeEntry.Accumulate(e, a.inc, a.save, a.dec), rest)
  {
    assert ([a] + rest)[1..] == rest;
  }

  /** Four iterations with increment and save pressed, from power-up, enter
      the code 1, 2, 3, 4 and leave the controller locked. */
  lemma FourPressesEnterCode(sample: Option<Environment.Reading>)
    ensures var press := Inputs(true, true, false, sample, 0);
            var s4 := Run(Init(), [press, press, press, press]).state;
            s4.entry.input == CodeEntry.SAVED_PASSWORD && s4.locked
  {
    var press := Inputs(true, true, false, sample, 0);
    var e0 := CodeEntry.Empty();
    var e1 := CodeEntry.Accumulate(e0, true, true, false);
    var e2 := CodeEntry.Accumulate(e1, true, true, false);
    var e3 := CodeEntry.Accumulate(e2, true, true, false);
    var e4 := CodeEntry.Accumulate(e3, true, true, false);
    assert e4.input == CodeEntry.SAVED_PASSWORD;
    EntryAfterCons(e0, press, [press, press, press]);
    EntryAfterCons(e1, press, [press, press]);
    EntryAfterCons(e2, press, [press]);
    EntryAfterCons(e3, press, []);
    QuietRun(Init(), [press, press, press, press]);
  }

  /** Submitting the stored code unlocks and runs the grant sequence. */
  lemma SubmitStoredCode(s: State, sample: Option<Environment.Reading>)
    requires Valid(s) && s.entry.input == CodeEntry.SAVED_PASSWORD
    ensures var r := Step(s, Inputs(false, false, false, sample, 51));
            !r.state.locked && Cues(r.trace) == GrantCues()
  {
    assert CodeEntry.Accumulate(s.entry, false, false, false) == s.entry;
    StepCues(s, Inputs(false, false, false, sample, 51));
  }

  /** Pressing increment and save together four times from power-up enters
      1, 2, 3, 4; pushing the joystick then runs the grant sequence and unlocks. */
  lemma EnterCodeAndUnlock(sample: Option<Environment.Reading>)
    ensures var press := Inputs(true, true, false, sample, 0);
            var s4 := Run(Init(), [press, press, press, press]).state;
            && s4.entry.input == CodeEntry.SAVED_PASSWORD
            && s4.locked
            && !Step(s4, Inputs(false, false, false, sample, 51)).state.locked
            && Cues(Step(s4, Inputs(false, false, false, sample, 51)).trace) == GrantCues()
  {
    var press := Inputs(true, true, false, sample, 0);
    FourPressesEnterCode(sample);
    SubmitStoredCode(Run(Init(), [press, press, press, press]).state, sample);
  }

  /** Entering 1, 2, 3, 5 and pushing the joystick runs the deny sequence and
      stays locked. */
  lemma WrongCodeDenied(s: State, sample: Option<Environment.Reading>)
    requires Valid(s) && s.locked
    requires s.entry.input == ['1', '2', '3', '5']
    ensures var r := Step(s, Inputs(false, false, false, sample, 51));
            && r.state.locked
            && Cues(r.trace) == [CueBuzz, CueBuzz]
            && r.state.entry == CodeEntry.Empty()
  {
    StepCues(s, Inputs(false, false, false, sample, 51));
    CodeEntry.WrongLastDigitRejected();
  }
}
