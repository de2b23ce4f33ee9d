/** Concrete runs of the monitor, at given clock readings and inputs. */
module Scenarios {
  import opened Clock
  import BlinkFsm
  import opened MonitorFsm
  import Sketch

  /** Boot with the input HIGH at 0 ms: `Resting`. At 60 000 ms, input still
    * HIGH, the rest pulse fires and the flag is set. At 60 500 ms the input
    * goes LOW: `Working`, recorded at 60 500 ms, flag cleared. */
  lemma RestThenWork(level: bool)
    ensures var m0 := Setup(PowerOn(level), true, 0);
      var o1 := Tick(m0, true, 60000);
      var o2 := Tick(o1.machine, false, 60500);
      && m0.status == Resting
      && o1.pulsed && o1.machine.status == Resting && o1.machine.restEnough && !o1.machine.alarm
      && !o2.pulsed
      && o2.machine.status == Working && o2.machine.timeRecord == 60500 && !o2.machine.restEnough
  {
  }

  /** Boot with the input LOW at 0 ms: `Working`. At 2 400 000 ms, input still
    * LOW, the alarm starts, recorded at 2 400 000 ms; `blink` is not reset,
    * so its statics are still those of power-on and the pin is LOW. */
  lemma WorkThenAlarm(level: bool)
    ensures var m0 := Setup(PowerOn(level), false, 0);
      var o1 := Tick(m0, false, 2400000);
      && m0.status == Working
      && o1.machine.status == Alarming && o1.machine.timeRecord == 2400000
      && o1.machine.blink == BlinkFsm.Initial && !o1.machine.alarm
  {
  }

  /** An insufficient rest carries its record into `Working`: resting from
    * 0 ms and working from 30 000 ms, the alarm starts at 2 400 000 ms, after
    * only 2 370 000 ms of work. */
  lemma StaleRecordAlarmsEarly(level: bool)
    ensures var m0 := Setup(PowerOn(level), true, 0);
      var o1 := Tick(m0, false, 30000);
      var o2 := Tick(o1.machine, false, 2400000);
      && o1.machine.status == Working && o1.machine.timeRecord == 0
      && o2.machine.status == Alarming
  {
  }

  /** Dwell is measured across the wrap of the clock: resting since 1 000 ms
    * before the wrap, a tick 59 000 ms after it sees 60 000 ms of rest. */
  lemma RestAcrossWrap(level: bool)
    ensures var m0 := Setup(PowerOn(level), true, Modulus - 1000);
      Tick(m0, true, 59000).pulsed
  {
  }

  /** The same first scenario, driven through the board's methods. */
  method BoardRestThenWork()
  {
    var board := new Sketch.Board(true);
    board.Setup(true, 0);
    assert board.status == Resting && !board.alarmLevel;
    var pulsed := board.Loop(true, 60000);
    assert pulsed && board.restEnough && !board.alarmLevel;
    pulsed := board.Loop(false, 60500);
    assert !pulsed && board.status == Working && board.timeRecord == 60500 && !board.restEnough;
  }
}
