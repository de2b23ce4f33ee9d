/** The blink state machine of `blink(reset, LED_DELAY)`: two states kept in
  * function-local statics, and the alarm pin, which each toggle reads back and
  * inverts. This module holds the step as a function of the statics and the
  * pin level; `Sketch.Board.Blink` performs it in place. */
module BlinkFsm {
  import opened Clock

  datatype BlinkState = LedToggle | WaitDelay

  /** The two statics of `blink`: its state and `timeLastTransition`. */
  datatype Blinker = Blinker(state: BlinkState, last: U32)

  /** The statics and the alarm pin level after one call. */
  datatype BlinkResult = BlinkResult(blinker: Blinker, level: bool)

  /** The statics as the program starts, before any call. */
  const Initial: Blinker := Blinker(LedToggle, 0)

  /** One call `blink(reset, period)` at clock reading `now`, the alarm pin
    * being at `level` (true is HIGH). A reset forces the state to
    * `LedToggle` and the pin LOW, and the `switch` then runs on that state
    * in the same call. */
  function Step(b: Blinker, level: bool, reset: bool, period: U32, now: U32): (r: BlinkResult)
    // A reset is not left at LOW: the toggle that follows it drives the pin
    // HIGH, whatever the statics and the pin were before.
    ensures reset ==> r == BlinkResult(Blinker(WaitDelay, now), true)
    // Without a reset the pin only ever changes by inversion, and only when
    // the call starts in LedToggle.
    ensures !reset ==> (r.level != level <==> b.state == LedToggle)
  {
    var start := if reset then LedToggle else b.state;
    var pin := if reset then false else level;
    match start
    case LedToggle => BlinkResult(Blinker(WaitDelay, now), !pin)
    case WaitDelay =>
      var next := if Elapsed(now, b.last) >= period then LedToggle else WaitDelay;
      BlinkResult(Blinker(next, b.last), pin)
  }

  /** Calls without reset, one per clock reading in `times`. */
  function Run(b: Blinker, level: bool, times: seq<U32>, period: U32): (r: BlinkResult)
    decreases |times|
  {
    if times == [] then BlinkResult(b, level)
    else
      var s := Step(b, level, false, period, times[0]);
      Run(s.blinker, s.level, times[1..], period)
  }

  /** How many of those calls start in `LedToggle`, that is, invert the pin. */
  function Toggles(b: Blinker, level: bool, times: seq<U32>, period: U32): (n: nat)
    decreases |times|
  {
    if times == [] then 0
    else
      var s := Step(b, level, false, period, times[0]);
      (if b.state == LedToggle then 1 else 0) + Toggles(s.blinker, s.level, times[1..], period)
  }

  /** One call without reset, by state: a toggle inverts the pin, stamps the
    * time and waits; a wait moves to `LedToggle` exactly when `period`
    * milliseconds have passed since the last toggle, and touches nothing else. */
  lemma StepWithoutReset(b: Blinker, level: bool, period: U32, now: U32)
    ensures var r := Step(b, level, false, period, now);
      && (b.state == LedToggle ==> r == BlinkResult(Blinker(WaitDelay, now), !level))
      && (b.state == WaitDelay ==>
            && r.level == level
            && r.blinker.last == b.last
            && (r.blinker.state == LedToggle <==> Elapsed(now, b.last) >= period))
  {
  }

  /** A reset forgets everything: two calls with reset at the same instant end
    * alike whatever the statics and pin level before each, so repeating a
    * reset changes nothing. */
  lemma ResetForgetsHistory(b1: Blinker, l1: bool, b2: Blinker, l2: bool, p1: U32, p2: U32, now: U32)
    ensures Step(b1, l1, true, p1, now) == Step(b2, l2, true, p2, now)
    ensures var r := Step(b1, l1, true, p1, now);
      Step(r.blinker, r.level, true, p1, now) == r
  {
  }

  /** After a toggle the pin holds its level, and the statics stay put, for as
    * long as every call comes less than `period` milliseconds after it. */
  lemma {:induction false} HoldsWithinPeriod(b: Blinker, level: bool, times: seq<U32>, period: U32)
    requires b.state == WaitDelay
    requires forall i :: 0 <= i < |times| ==> Elapsed(times[i], b.last) < period
    ensures Run(b, level, times, period) == BlinkResult(b, level)
  {
    if times != [] {
      HoldsWithinPeriod(b, level, times[1..], period);
    }
  }

  /** The pin ends inverted exactly when an odd number of calls toggled it: no
    * call without reset changes the pin other than by a toggle. */
  lemma {:induction false} LevelFollowsToggles(b: Blinker, level: bool, times: seq<U32>, period: U32)
    ensures Run(b, level, times, period).level == (level != (Toggles(b, level, times, period) % 2 == 1))
    decreases |times|
  {
    if times != [] {
      var r := Step(b, level, false, period, times[0]);
      LevelFollowsToggles(r.blinker, r.level, times[1..], period);
    }
  }

  /** Once `period` has passed since the last toggle, two calls suffice to
    * invert the pin: the first arms the toggle, the second performs it. */
  lemma ToggleAfterPeriod(b: Blinker, level: bool, period: U32, t1: U32, t2: U32)
    requires b.state == WaitDelay && Elapsed(t1, b.last) >= period
    ensures Run(b, level, [t1, t2], period) == BlinkResult(Blinker(WaitDelay, t2), !level)
  {
    var armed := Step(b, level, false, period, t1);
    assert armed == BlinkResult(Blinker(LedToggle, b.last), level);
    assert [t1, t2][1..] == [t2];
    assert Run(b, level, [t1, t2], period) == Run(armed.blinker, armed.level, [t2], period);
    assert [t2][1..] == [];
    var toggled := Step(armed.blinker, armed.level, false, period, t2);
    assert Run(armed.blinker, armed.level, [t2], period) == Run(toggled.blinker, toggled.level, [], period);
  }
}
