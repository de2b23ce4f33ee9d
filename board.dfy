/** The sketch as it runs on the board: the globals, the statics of `blink`
  * and the alarm pin's level as fields, updated in place by `Blink`, `Setup`
  * and `Loop` in the order the program assigns them. Each method is proved
  * against the step function of `BlinkFsm` or `MonitorFsm`. */
module Sketch {
  import opened Clock
  import BlinkFsm
  import opened MonitorFsm

  class Board {
    var status: Status
    var timeRecord: U32
    var restEnough: bool
    /** The level last written to the alarm pin (true is HIGH). */
    var alarmLevel: bool
    /** The static `state` of `blink`. */
    var blinkState: BlinkFsm.BlinkState
    /** The static `timeLastTransition` of `blink`. */
    var blinkLast: U32

    /** The whole mutable state as one value. */
    function Snapshot(): (m: Machine)
      reads this
    {
      Machine(status, timeRecord, restEnough, alarmLevel, BlinkFsm.Blinker(blinkState, blinkLast))
    }

    /** The static initialisers, before `setup` runs. */
    constructor (level: bool)
      ensures Snapshot() == PowerOn(level)
    {
      status := Resting;
      timeRecord := 0;
      restEnough := false;
      alarmLevel := level;
      blinkState := BlinkFsm.LedToggle;
      blinkLast := 0;
    }

    /** `blink(reset, period)` at clock reading `now`. */
    method Blink(reset: bool, period: U32, now: U32)
      modifies this
      ensures var b := BlinkFsm.Step(old(Snapshot()).blink, old(alarmLevel), reset, period, now);
        Snapshot() == old(Snapshot()).(blink := b.blinker, alarm := b.level)
    {
      if reset {
        blinkState := BlinkFsm.LedToggle;
        alarmLevel := false;
      }
      match blinkState
      case LedToggle =>
        alarmLevel := !alarmLevel;
        blinkLast := now;
        blinkState := BlinkFsm.WaitDelay;
      case WaitDelay =>
        if Elapsed(now, blinkLast) >= period {
          blinkState := BlinkFsm.LedToggle;
        }
    }

    /** `setup`, the input reading `input` and the clock `now`. */
    method Setup(input: bool, now: U32)
      modifies this
      ensures Snapshot() == MonitorFsm.Setup(old(Snapshot()), input, now)
      ensures alarmLevel == false && timeRecord == now
      ensures status == (if input then Resting else Working)
      ensures !old(restEnough) ==> Inv(Snapshot())
    {
      alarmLevel := false;
      if input {
        status := Resting;
        timeRecord := now;
      } else {
        status := Working;
        timeRecord := now;
      }
    }

    /** One call of `loop`, the input reading `input` and the clock `now`
      * throughout; `pulsed` tells whether it emitted the rest pulse. */
    method Loop(input: bool, now: U32) returns (pulsed: bool)
      modifies this
      ensures Outcome(Snapshot(), pulsed) == Tick(old(Snapshot()), input, now)
      ensures Inv(old(Snapshot())) ==> Inv(Snapshot())
    {
      pulsed := false;
      match status
      case Resting =>
        if Elapsed(now, timeRecord) >= RestTime && restEnough == false {
          restEnough := true;
          alarmLevel := true;
          pulsed := true;
          alarmLevel := false;
        }
        if !input {
          if restEnough == true {
            status := Working;
            timeRecord := now;
            restEnough := false;
          } else {
            status := Working;
          }
        }
      case Working =>
        if Elapsed(now, timeRecord) >= WorkingTime {
          status := Alarming;
          timeRecord := now;
        }
        if Elapsed(now, timeRecord) < WorkingTime && input {
          status := WorkingToResting;
          timeRecord := now;
        }
      case Alarming =>
        Blink(false, AlarmBlinkPeriod, now);
        if input {
          status := AlarmToResting;
          timeRecord := now;
          alarmLevel := false;
        }
      case AlarmToResting =>
        if Elapsed(now, timeRecord) >= AlarmTime && input {
          timeRecord := now;
          status := Resting;
        }
        if Elapsed(now, timeRecord) < AlarmTime && !input {
          timeRecord := now;
          status := Alarming;
        }
      case WorkingToResting =>
        if Elapsed(now, timeRecord) >= WorkingToRestingTime && input {
          timeRecord := now;
          status := Resting;
        }
        if Elapsed(now, timeRecord) < WorkingToRestingTime && !input {
          timeRecord := now;
          status := Working;
        }
    }
  }
}
