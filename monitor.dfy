/** The working-time monitor of `setup` and `loop`: five states, the global
  * `time_record` and the one-shot flag `rest_enough`. One tick is one call of
  * `loop` with the infrared input and the clock sampled once; this module
  * holds it as a function on a record of the program's whole mutable state,
  * and `Sketch.Board` performs it in place. */
module MonitorFsm {
  import opened Clock
  import BlinkFsm

  datatype Status = Resting | Working | Alarming | AlarmToResting | WorkingToResting

  /** Dwell in `Resting` that makes a rest sufficient (ms). */
  const RestTime: U32 := 60 * 1000
  /** Dwell in `Working` after which the alarm starts (ms). */
  const WorkingTime: U32 := 40 * 60 * 1000
  /** Dwell in `AlarmToResting` that leads on to `Resting` (ms). */
  const AlarmTime: U32 := 60 * 1000
  /** Dwell in `WorkingToResting` that leads on to `Resting` (ms); a literal in
    * the loop body. */
  const WorkingToRestingTime: U32 := 20000
  /** Blink period while `Alarming` (ms). */
  const AlarmBlinkPeriod: U32 := 500

  /** Everything the program keeps between ticks: the three globals, the alarm
    * pin's level (true is HIGH) and the statics of `blink`. */
  datatype Machine = Machine(
    status: Status,
    timeRecord: U32,
    restEnough: bool,
    alarm: bool,
    blink: BlinkFsm.Blinker)

  /** The state after a tick, and whether the tick emitted the 200 ms rest
    * pulse on the alarm pin (driven HIGH, then LOW again). */
  datatype Outcome = Outcome(machine: Machine, pulsed: bool)

  /** One sample of the infrared input (true is HIGH) and of the clock. */
  datatype Sample = Sample(input: bool, now: U32)

  /** The flag is set only in `Resting`, and the alarm pin is LOW outside
    * `Alarming`. */
  predicate Inv(m: Machine)
  {
    && (m.status != Resting ==> !m.restEnough)
    && (m.status != Alarming ==> !m.alarm)
  }

  /** The state as the program starts, from the static initialisers, the
    * alarm pin being at whatever level the hardware comes up with. */
  function PowerOn(level: bool): (m: Machine)
  {
    Machine(Resting, 0, false, level, BlinkFsm.Initial)
  }

  /** `setup`: drive the alarm pin LOW and choose the first state from one
    * sample of the input, recording the time. */
  function Setup(m: Machine, input: bool, now: U32): (r: Machine)
    ensures !m.restEnough ==> Inv(r)
  {
    m.(status := if input then Resting else Working, timeRecord := now, alarm := false)
  }

  /** The two sequential guarded updates of a cooldown state: on to `Resting`
    * after `threshold` ms with input HIGH, then back to `back` before
    * `threshold` ms with input LOW, the second seeing the first's record. */
  function Cooldown(m: Machine, input: bool, now: U32, threshold: U32, back: Status): (r: Machine)
  {
    var m1 := if Elapsed(now, m.timeRecord) >= threshold && input
              then m.(timeRecord := now, status := Resting) else m;
    if Elapsed(now, m1.timeRecord) < threshold && !input
    then m1.(timeRecord := now, status := back) else m1
  }

  /** One call of `loop`, its `if`s applied in sequence as written, each
    * guard seeing what the earlier ones assigned. */
  function Tick(m: Machine, input: bool, now: U32): (r: Outcome)
    ensures Inv(m) ==> Inv(r.machine)
    ensures r.pulsed ==> m.status == Resting && !m.restEnough && Elapsed(now, m.timeRecord) >= RestTime
    ensures r.machine.blink != m.blink ==> m.status == Alarming
  {
    match m.status
    case Resting =>
      var pulse := Elapsed(now, m.timeRecord) >= RestTime && !m.restEnough;
      var m1 := if pulse then m.(restEnough := true, alarm := false) else m;
      var m2 :=
        if input then m1
        else if m1.restEnough then m1.(status := Working, timeRecord := now, restEnough := false)
        else m1.(status := Working);
      Outcome(m2, pulse)
    case Working =>
      var m1 := if Elapsed(now, m.timeRecord) >= WorkingTime
                then m.(status := Alarming, timeRecord := now) else m;
      var m2 := if Elapsed(now, m1.timeRecord) < WorkingTime && input
                then m1.(status := WorkingToResting, timeRecord := now) else m1;
      Outcome(m2, false)
    case Alarming =>
      var b := BlinkFsm.Step(m.blink, m.alarm, false, AlarmBlinkPeriod, now);
      var m1 := m.(blink := b.blinker, alarm := b.level);
      var m2 := if input then m1.(status := AlarmToResting, timeRecord := now, alarm := false) else m1;
      Outcome(m2, false)
    case AlarmToResting =>
      Outcome(Cooldown(m, input, now, AlarmTime, Alarming), false)
    case WorkingToResting =>
      Outcome(Cooldown(m, input, now, WorkingToRestingTime, Working), false)
  }

  /** The state after one tick per sample. */
  function Run(m: Machine, samples: seq<Sample>): (r: Machine)
    ensures Inv(m) ==> Inv(r)
    decreases |samples|
  {
    if samples == [] then m
    else Run(Tick(m, samples[0].input, samples[0].now).machine, samples[1..])
  }

  /** How many of those ticks emitted the rest pulse. */
  function Pulses(m: Machine, samples: seq<Sample>): (n: nat)
    decreases |samples|
  {
    if samples == [] then 0
    else
      var o := Tick(m, samples[0].input, samples[0].now);
      (if o.pulsed then 1 else 0) + Pulses(o.machine, samples[1..])
  }

  /** The clock readings of the samples, in order. */
  function Times(samples: seq<Sample>): (ts: seq<U32>)
    ensures |ts| == |samples|
    ensures forall i :: 0 <= i < |samples| ==> ts[i] == samples[i].now
    decreases |samples|
  {
    if samples == [] then [] else [samples[0].now] + Times(samples[1..])
  }

  // ---------------------------------------------------------------------
  // Initialisation

  /** After power-on and `setup` the pin is LOW, the record is the time of
    * setup, the state is `Resting` exactly when the input reads HIGH (else
    * `Working`), the flag is clear and the invariant holds. */
  lemma SetupInitialises(level: bool, input: bool, now: U32)
    ensures var m := Setup(PowerOn(level), input, now);
      && m.status == (if input then Resting else Working)
      && m.timeRecord == now
      && !m.alarm && !m.restEnough
      && m.blink == BlinkFsm.Initial
      && Inv(m)
  {
  }

  /** Whatever the inputs and clock readings, every state reached after boot
    * satisfies the invariant. */
  lemma BootKeepsInv(level: bool, input: bool, now: U32, samples: seq<Sample>)
    ensures Inv(Run(Setup(PowerOn(level), input, now), samples))
  {
  }

  // ---------------------------------------------------------------------
  // One tick, state by state

  /** `Resting`: the rest pulse fires exactly once the dwell reaches
    * `RestTime` with the flag still clear, sets the flag and leaves the pin
    * LOW. Input LOW then moves to `Working`, re-recording the time and clearing
    * the flag only if the rest was sufficient (counting a flag set in this
    * same tick); an insufficient rest carries the old record into `Working`. */
  lemma RestingTick(m: Machine, input: bool, now: U32)
    requires m.status == Resting
    ensures var r := Tick(m, input, now);
      var e := Elapsed(now, m.timeRecord);
      var enough := m.restEnough || e >= RestTime;
      && (r.pulsed <==> e >= RestTime && !m.restEnough)
      && r.machine.alarm == (if r.pulsed then false else m.alarm)
      && r.machine.blink == m.blink
      && (input ==>
            r.machine == m.(restEnough := enough, alarm := r.machine.alarm))
      && (!input && enough ==>
            r.machine == m.(status := Working, timeRecord := now, restEnough := false, alarm := r.machine.alarm))
      && (!input && !enough ==>
            r.machine == m.(status := Working))
  {
  }

  /** `Working`: past `WorkingTime` the tick starts the alarm and re-records
    * the time; since the next guard then sees a fresh record, input HIGH in
    * the same tick moves on to `WorkingToResting`. Before `WorkingTime`,
    * input HIGH moves to `WorkingToResting` and input LOW changes nothing. */
  lemma WorkingTick(m: Machine, input: bool, now: U32)
    requires m.status == Working
    ensures var r := Tick(m, input, now);
      var e := Elapsed(now, m.timeRecord);
      && !r.pulsed
      && (e >= WorkingTime && !input ==> r.machine == m.(status := Alarming, timeRecord := now))
      && (e >= WorkingTime && input ==> r.machine == m.(status := WorkingToResting, timeRecord := now))
      && (e < WorkingTime && input ==> r.machine == m.(status := WorkingToResting, timeRecord := now))
      && (e < WorkingTime && !input ==> r.machine == m)
  {
  }

  /** The alarm starts in exactly the ticks of `Working` whose dwell has
    * reached `WorkingTime` while the input reads LOW. */
  lemma WorkingAlarmsIff(m: Machine, input: bool, now: U32)
    requires m.status == Working
    ensures Tick(m, input, now).machine.status == Alarming
            <==> Elapsed(now, m.timeRecord) >= WorkingTime && !input
  {
    WorkingTick(m, input, now);
  }

  /** `Alarming`: every tick first takes one blink step of period 500 ms;
    * input HIGH then moves to `AlarmToResting`, re-records the time and
    * forces the pin LOW, while input LOW keeps the state and the record. */
  lemma AlarmingTick(m: Machine, input: bool, now: U32)
    requires m.status == Alarming
    ensures var r := Tick(m, input, now);
      var b := BlinkFsm.Step(m.blink, m.alarm, false, AlarmBlinkPeriod, now);
      && !r.pulsed
      && r.machine.blink == b.blinker
      && r.machine.restEnough == m.restEnough
      && (input ==> r.machine.status == AlarmToResting && r.machine.timeRecord == now && !r.machine.alarm)
      && (!input ==> r.machine.status == Alarming && r.machine.timeRecord == m.timeRecord && r.machine.alarm == b.level)
  {
  }

  /** `AlarmToResting` and `WorkingToResting`: after the state's threshold
    * with input HIGH the tick moves to `Resting`; before it with input LOW it
    * moves back to `Alarming` or `Working`; either transition re-records the
    * time. Otherwise nothing changes, so at most one transition fires. */
  lemma CooldownTick(m: Machine, input: bool, now: U32)
    requires m.status == AlarmToResting || m.status == WorkingToResting
    ensures var r := Tick(m, input, now);
      var threshold := if m.status == AlarmToResting then AlarmTime else WorkingToRestingTime;
      var back := if m.status == AlarmToResting then Alarming else Working;
      var e := Elapsed(now, m.timeRecord);
      && !r.pulsed
      && (e >= threshold && input ==> r.machine == m.(status := Resting, timeRecord := now))
      && (e < threshold && !input ==> r.machine == m.(status := back, timeRecord := now))
      && (e >= threshold && !input ==> r.machine == m)
      && (e < threshold && input ==> r.machine == m)
  {
  }

  // ---------------------------------------------------------------------
  // Runs of ticks

  /** While the input stays HIGH, `Resting` is kept, the record is untouched
    * and the rest pulse fires at most once: once if the flag was clear and
    * some tick came `RestTime` or more after the record, never otherwise. */
  lemma {:induction false} RestPulsesOnce(m: Machine, samples: seq<Sample>)
    requires m.status == Resting
    requires forall i :: 0 <= i < |samples| ==> samples[i].input
    ensures Run(m, samples).status == Resting
    ensures Run(m, samples).timeRecord == m.timeRecord
    ensures Pulses(m, samples) <= 1
    ensures Pulses(m, samples) == 1 <==>
              !m.restEnough &&
              exists i :: 0 <= i < |samples| && Elapsed(samples[i].now, m.timeRecord) >= RestTime
    ensures Run(m, samples).restEnough == (Pulses(m, samples) == 1 || m.restEnough)
    decreases |samples|
  {
    if samples != [] {
      var o := Tick(m, samples[0].input, samples[0].now);
      RestingTick(m, samples[0].input, samples[0].now);
      RestPulsesOnce(o.machine, samples[1..]);
      if o.pulsed {
        assert Elapsed(samples[0].now, m.timeRecord) >= RestTime;
      } else if !m.restEnough {
        assert forall i :: 1 <= i < |samples| ==>
          Elapsed(samples[i].now, m.timeRecord) == Elapsed(samples[1..][i - 1].now, m.timeRecord);
      }
    }
  }

  /** While the input stays LOW and every tick comes less than `WorkingTime`
    * after the record, `Working` changes nothing at all. */
  lemma {:induction false} WorkingHolds(m: Machine, samples: seq<Sample>)
    requires m.status == Working
    requires forall i :: 0 <= i < |samples| ==>
               !samples[i].input && Elapsed(samples[i].now, m.timeRecord) < WorkingTime
    ensures Run(m, samples) == m
    decreases |samples|
  {
    if samples != [] {
      WorkingTick(m, samples[0].input, samples[0].now);
      WorkingHolds(m, samples[1..]);
    }
  }

  /** While the input stays LOW, `Alarming` keeps its state, record and flag,
    * and the pin and the blink statics evolve exactly as a run of
    * `blink(false, 500)` calls at the same clock readings. */
  lemma {:induction false} AlarmingBlinksWhileLow(m: Machine, samples: seq<Sample>)
    requires m.status == Alarming
    requires forall i :: 0 <= i < |samples| ==> !samples[i].input
    ensures var b := BlinkFsm.Run(m.blink, m.alarm, Times(samples), AlarmBlinkPeriod);
      Run(m, samples) == m.(blink := b.blinker, alarm := b.level)
    decreases |samples|
  {
    if samples != [] {
      var o := Tick(m, samples[0].input, samples[0].now);
      AlarmingTick(m, samples[0].input, samples[0].now);
      AlarmingBlinksWhileLow(o.machine, samples[1..]);
      assert Times(samples)[1..] == Times(samples[1..]);
    }
  }
}
