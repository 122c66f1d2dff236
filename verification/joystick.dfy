/** The joystick sampler: the X-axis reading, already scaled to 0..100, is
    turned round about the calibrated centre and a small dead zone around the
    centre is reported as 0. A value above the trigger threshold submits the
    entered code. */
module Joystick {

  /** Calibrated centre of the scaled reading. */
  const CENTRAL_VALUE: int := 74
  /** Half-width of the dead zone around the centre. */
  const DEAD_ZONE: int := 2
  /** The main loop submits the code when the position is strictly above this. */
  const TRIGGER_THRESHOLD: int := 50

  function Abs(v: int): nat {
    if v < 0 then -v else v
  }

  /** The position reported for a scaled reading. */
  function Normalize(scaled: int): (x: int)
    ensures Abs(CENTRAL_VALUE - scaled) <= DEAD_ZONE ==> x == 0
    ensures Abs(CENTRAL_VALUE - scaled) > DEAD_ZONE ==> x == CENTRAL_VALUE - scaled
    ensures x == 0 || Abs(x) > DEAD_ZONE
    ensures 0 <= scaled <= 100 ==> -26 <= x <= 74
  {
    var offset := CENTRAL_VALUE - scaled;
    if Abs(offset) <= DEAD_ZONE then 0 else offset
  }

  /** The strict trigger test of the main loop. */
  predicate Triggers(x: int) {
    x > TRIGGER_THRESHOLD
  }

  /** The dead zone is exactly the scaled readings 72..76, and no position
      lies strictly between 0 and the dead-zone edge on either side. */
  lemma DeadZoneExact(scaled: int)
    ensures Normalize(scaled) == 0 <==> 72 <= scaled <= 76
    ensures !(-2 <= Normalize(scaled) <= -1) && !(1 <= Normalize(scaled) <= 2)
  {
  }

  /** Within the scaled range, the code is submitted exactly when the stick
      is pushed to a reading below 24. */
  lemma TriggerIffFarSide(scaled: int)
    requires 0 <= scaled <= 100
    ensures Triggers(Normalize(scaled)) <==> scaled < 24
  {
  }

  /** The trigger is strict: 50 does not submit, 51 does. */
  lemma TriggerBoundary()
    ensures !Triggers(50) && Triggers(51)
    ensures Normalize(24) == 50 && Normalize(23) == 51
  {
  }
}
