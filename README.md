# pinSM_arduino working-time monitor, in Dafny

This project models `src/main.cpp`, an Arduino sketch for an ESP8266 board. The sketch watches an infrared
presence input and drives an alarm output, so that someone who works too long without a rest gets an alert.
It has two polled, single-threaded finite-state machines:

- **Monitor** (`setup`, `loop`). It has five states: `RESTING`, `WORKING`, `ALARMING`, `ALARM2RESTING` and
  `WORKING2RESTING`. It keeps the globals `status`, `time_record` (a `uint32_t` millisecond timestamp) and
  `rest_enough` (a one-shot flag). Each `loop` call compares the dwell `millis() - time_record` with fixed
  thresholds: 60 000, 2 400 000, 60 000 and 20 000 ms.
- **Blink** (`blink`). It has two states, `LED_TOGGLE` and `WAIT_DELAY`, and a `timeLastTransition` timestamp,
  kept in function-local statics. It toggles the alarm pin and then waits for a period.

Modules:

- `Clock` (clock.dfy): the `uint32_t` clock as `U32`. `Elapsed` is the unsigned difference, wrap-around included.
- `BlinkFsm` (blink.dfy): one `blink` call as the function `Step`, and multi-call runs.
- `MonitorFsm` (monitor.dfy): the program's whole mutable state as the record `Machine`. `Setup` and `Tick`
  model `setup` and one `loop` call, written as the code's sequential `if`s. The invariant `Inv` says the flag
  is set only in `Resting` and the pin is LOW outside `Alarming`. The lemmas give each state's outcome and
  properties of runs of ticks.
- `Sketch` (board.dfy): the class `Board`. Its fields are the globals, the blink statics and the pin level.
  `Blink`, `Setup` and `Loop` update them in place, in the order the code assigns them. Each method is proved
  to produce the state its step function gives.
- `Scenarios` (scenarios.dfy): concrete runs at given times and inputs.

Input HIGH is `true`. Each tick takes one input sample `input` and one clock reading `now`.

The model follows the code as written, including these behaviours the comments do not announce:

- `blink(true, d)` forces the pin LOW and then, in the same call, runs the `LED_TOGGLE` case. So it ends with
  the pin HIGH and the state `WAIT_DELAY`.
- `loop` only ever calls `blink(false, 500)`. The blink statics are never reset and carry over from one alarm
  episode to the next.
- In `WORKING` the two `if`s are sequential. Once the dwell reaches `WORKING_TIME`, input HIGH ends the tick in
  `WORKING2RESTING`, not `ALARMING`.
- `WORKING` exits to `WORKING2RESTING` on input HIGH. The commented-out guard at main.cpp:109 tested LOW, and
  the header comment at main.cpp:7 reads LOW as working.
- Leaving `RESTING` for `WORKING` after an insufficient rest keeps the old `time_record`, because the
  re-recording at main.cpp:97 is commented out.

## Model

| member | source | states |
|---|---|---|
| Clock.Elapsed | src/main.cpp:83 | the unsigned 32-bit dwell `now - rec`: `now - rec` without a wrap, `now + 2^32 - rec` across one, and adding it to `rec` modulo 2^32 gives back `now` |
| Clock.ElapsedAfter | src/main.cpp:46 | a record `d` ms old is measured as `d` ms whether or not the counter wrapped in between |
| BlinkFsm.Step | src/main.cpp:26-48 | a reset call ends with the pin HIGH, state `WAIT_DELAY` and the time stamped, whatever came before; without a reset the pin changes exactly when the call starts in `LED_TOGGLE` |
| BlinkFsm.StepWithoutReset | src/main.cpp:37-48 | `LED_TOGGLE` inverts the pin, stamps `now` and moves to `WAIT_DELAY`; `WAIT_DELAY` moves to `LED_TOGGLE` iff the dwell since the last toggle is at least the period, leaving the pin and timestamp alone |
| BlinkFsm.ResetForgetsHistory | src/main.cpp:31-43 | two reset calls at one instant give the same result whatever the prior statics, pin and period; a second reset changes nothing |
| BlinkFsm.HoldsWithinPeriod | src/main.cpp:45-48 | after a toggle, calls made less than a period after it leave the pin and the statics unchanged |
| BlinkFsm.LevelFollowsToggles | src/main.cpp:39-48 | over any run of calls without reset, the pin ends inverted exactly when an odd number of calls toggled it |
| BlinkFsm.ToggleAfterPeriod | src/main.cpp:39-48 | once the period has passed, two calls invert the pin and leave the machine waiting from the second call's time |
| MonitorFsm.Setup | src/main.cpp:58-75 | `setup` on a state whose flag is clear establishes the invariant |
| MonitorFsm.Tick | src/main.cpp:77-153 | one `loop` call keeps the invariant; a pulse happens only in `RESTING` with the flag clear and dwell at least `REST_TIME`; the blink statics move only in `ALARMING` |
| MonitorFsm.Run | src/main.cpp:77-153 | every run of `loop` calls keeps the invariant |
| MonitorFsm.SetupInitialises | src/main.cpp:63-74 | after power-on and `setup` the pin is LOW, `time_record` is the setup time, the state is `RESTING` iff the input is HIGH (else `WORKING`), the flag is clear |
| MonitorFsm.BootKeepsInv | src/main.cpp:58-153 | every state reached after boot, for any inputs and clock readings, has the flag clear outside `RESTING` and the pin LOW outside `ALARMING` |
| MonitorFsm.RestingTick | src/main.cpp:83-99 | `RESTING`: pulse iff dwell at least `REST_TIME` and flag clear, which sets the flag and ends LOW; input LOW moves to `WORKING`, re-recording and clearing the flag iff the rest was sufficient (even if only in this tick), otherwise keeping the old record |
| MonitorFsm.WorkingTick | src/main.cpp:105-113 | `WORKING`, by dwell and input: past `WORKING_TIME` and LOW gives `ALARMING` recorded now; past it and HIGH ends in `WORKING2RESTING` recorded now; before it and HIGH gives `WORKING2RESTING`; before it and LOW changes nothing |
| MonitorFsm.WorkingAlarmsIff | src/main.cpp:105-113 | `WORKING` goes to `ALARMING` in a tick iff the dwell has reached `WORKING_TIME` and the input is LOW |
| MonitorFsm.AlarmingTick | src/main.cpp:119-124 | `ALARMING`: one blink step of period 500 always; then input HIGH gives `ALARM2RESTING`, recorded now, pin LOW; input LOW keeps the state and record and the pin as the blink step left it |
| MonitorFsm.CooldownTick | src/main.cpp:130-150 | `ALARM2RESTING` (60 000 ms) and `WORKING2RESTING` (20 000 ms): at or past the threshold with HIGH gives `RESTING`; before it with LOW goes back to `ALARMING` or `WORKING`; both re-record; otherwise nothing changes |
| MonitorFsm.RestPulsesOnce | src/main.cpp:83-88 | while the input stays HIGH, `RESTING` and its record are kept and the pulse fires at most once: exactly once iff the flag was clear and some tick came `REST_TIME` or more after the record |
| MonitorFsm.WorkingHolds | src/main.cpp:105-113 | while the input stays LOW and the dwell stays below `WORKING_TIME`, `WORKING` ticks change nothing |
| MonitorFsm.AlarmingBlinksWhileLow | src/main.cpp:116-125 | while the input stays LOW, `ALARMING` keeps state, record and flag, and the pin and blink statics follow a run of `blink(false, 500)` at the same times |
| Sketch.Board.constructor | src/main.cpp:18-29 | the fields start as the static initialisers give them |
| Sketch.Board.Blink | src/main.cpp:26-48 | updates the blink statics and the pin in place to the result of `BlinkFsm.Step`, touching nothing else |
| Sketch.Board.Setup | src/main.cpp:58-75 | drives the pin LOW, records `now`, picks `RESTING` on HIGH and `WORKING` on LOW, and yields a state satisfying the invariant |
| Sketch.Board.Loop | src/main.cpp:77-153 | performs the sequential `if`s of one `loop` call in place and ends in the state `MonitorFsm.Tick` gives, reporting the pulse; keeps the invariant |
| Scenarios.RestThenWork | src/main.cpp:83-99 | boot HIGH at 0; a tick at 60 000 HIGH pulses and sets the flag; a tick at 60 500 LOW gives `WORKING` recorded at 60 500 with the flag clear |
| Scenarios.WorkThenAlarm | src/main.cpp:102-114 | boot LOW at 0; a tick at 2 400 000 LOW gives `ALARMING` recorded at 2 400 000, with blink statics not reset and the pin LOW |
| Scenarios.StaleRecordAlarmsEarly | src/main.cpp:95-98 | resting from 0 and working from 30 000, the alarm starts at 2 400 000, after only 2 370 000 ms of work |
| Scenarios.RestAcrossWrap | src/main.cpp:83 | a rest that began 1 000 ms before the clock wraps is sufficient at 59 000 ms after the wrap |

## Left out

- Serial logging (`Serial.begin`, `Serial.println`, including the remaining-time string of the `RESTING` case) is not modelled. It is text output only.
- `delay(500)` at the start of each case is not modelled. Time is the clock reading `now` given to each tick.
- The 200 ms rest pulse is modelled as an event: `Loop` reports `pulsed`. The pin goes HIGH and then ends LOW in the same tick, and the 200 ms duration is not modelled.
- The source calls `digitalRead(IR_PIN)` and `millis()` several times within one `loop` call. The model reads each once per tick, as `input` and `now`. A change of the input, or the clock advancing during the `delay`s inside one call, is not modelled.
- Pin hardware is not modelled: `pinMode`, the pin numbers `ALARM_PIN` and `IR_PIN`, and `#include <Arduino.h>`. The alarm pin is the field `alarmLevel`, and `digitalRead(ALARM_PIN)` reads back that field. The level the pin has at power-on is a constructor parameter.
- The default arguments of `blink` (`reset = false`, `LED_DELAY = 1000`) are not modelled. The only call, at main.cpp:119, passes both, so `BlinkFsm.Step` takes them as parameters.
- The `default:` branch of `blink` is not modelled. Both `status` and the blink state are Dafny datatypes with no other value, so that branch cannot be reached.
- The endless repetition of `loop` by the Arduino runtime is modelled only as the finite runs `MonitorFsm.Run`, one tick per sample.
