/**
  The application: a six-state machine driven from an endless loop through a
  table of state functions. An attempt starts in Zero, which consults the
  credential buffer; an accepted attempt gives the accept feedback and then
  releases the latch, a rejected one gives the reject feedback and counts one
  more consecutive error. A lockout policy (engage the window lock after three
  consecutive errors) is present in the firmware but compiled out;
  `lockoutEnabled` selects it here. As written, nothing in the firmware ever
  releases the window lock once it is engaged.
*/
module SmartLock {
  import opened Hardware
  import opened Password
  import opened Control
  import Indicators

  datatype Phase = Zero | OneCorrect | OneWrong | TwoCorrect | TwoLockdownOn | TwoLockdownOff

  /** The dispatch table: the state variable is an index into it. */
  const Dispatch: seq<Phase> := [Zero, OneCorrect, OneWrong, TwoCorrect, TwoLockdownOn, TwoLockdownOff]

  /** The enumerator of a state, i.e. its position in the dispatch table. */
  function Index(p: Phase): (i: nat)
    ensures i < |Dispatch| && Dispatch[i] == p
  {
    match p
    case Zero => 0
    case OneCorrect => 1
    case OneWrong => 2
    case TwoCorrect => 3
    case TwoLockdownOn => 4
    case TwoLockdownOff => 5
  }

  /** The table has one entry per state and no state twice: every valid state
      variable dispatches to the state it encodes. */
  lemma DispatchIsOneToOne()
    ensures |Dispatch| == 6
    ensures forall i :: 0 <= i < |Dispatch| ==> Index(Dispatch[i]) == i
  {
  }

  /**
    Everything a step reads or writes: the current state, the consecutive-error
    counter (8 bits), the last password verdict, the application's own lockdown
    copy (declared in the application and never assigned) and the actuator
    driver's lockdown flag.
  */
  datatype Config = Config(phase: Phase, numErrors: byte, passwordCorrect: bool,
                           appLockdown: bool, lockdown: bool)

  /** The configuration at reset. */
  const Boot := Config(Zero, 0, false, false, false)

  /** One dispatch of the state machine. `correct` is the password verdict, which
      only state Zero consults. With `lockoutEnabled` the two deciding states take
      the compiled-out lockout branch. */
  function Next(c: Config, correct: bool, lockoutEnabled: bool): (d: Config)
    // every dispatch moves the machine on
    ensures d.phase != c.phase
    // only the lockout branch leads into the lockdown states
    ensures !lockoutEnabled ==> !d.phase.TwoLockdownOn? && !d.phase.TwoLockdownOff?
    // the verdict is recorded only in Zero, the counter changes only in the two
    // deciding states, the actuator flag only in the lockdown states
    ensures d.passwordCorrect != c.passwordCorrect ==> c.phase.Zero?
    ensures d.numErrors != c.numErrors ==> c.phase.OneCorrect? || c.phase.OneWrong?
    ensures d.lockdown != c.lockdown ==> c.phase.TwoLockdownOn? || c.phase.TwoLockdownOff?
    // the application's own lockdown copy is never assigned
    ensures d.appLockdown == c.appLockdown
  {
    match c.phase
    case Zero =>
      c.(phase := if correct then OneCorrect else OneWrong, passwordCorrect := correct)
    case OneCorrect =>
      c.(phase := if lockoutEnabled && c.appLockdown then TwoLockdownOff else TwoCorrect, numErrors := 0)
    case OneWrong =>
      var n := (c.numErrors + 1) % 0x100;
      c.(phase := if lockoutEnabled && n >= 3 then TwoLockdownOn else Zero, numErrors := n)
    case TwoCorrect => c.(phase := Zero)
    case TwoLockdownOn => c.(phase := Zero, lockdown := true)
    case TwoLockdownOff => c.(phase := TwoCorrect, lockdown := false)
  }

  /** What one dispatch does to the outside world. The actuator operations carry the
      lockdown flag as they find it, which decides what they emit. */
  datatype Action =
    | Decide                              // the password check only
    | Signal(period: uint16, led: Pin)    // a feedback sequence
    | Unlatch(lockdown: bool)             // the latch release
    | Engage(lockdown: bool)              // engaging the window lock
    | Disengage(lockdown: bool)           // releasing the window lock

  /** The action of the state function the table holds for `c`'s state. */
  function ActionOf(c: Config): (a: Action)
    ensures a.Signal? <==> c.phase.OneCorrect? || c.phase.OneWrong?
    ensures a.Signal? ==> (a.led == Indicators.GreenLed <==> c.phase.OneCorrect?)
    ensures (a.Unlatch? || a.Engage? || a.Disengage?) ==> a.lockdown == c.lockdown
  {
    match c.phase
    case Zero => Decide
    case OneCorrect => Signal(Indicators.AcceptPeriod, Indicators.GreenLed)
    case OneWrong => Signal(Indicators.RejectPeriod, Indicators.RedLed)
    case TwoCorrect => Unlatch(c.lockdown)
    case TwoLockdownOn => Engage(c.lockdown)
    case TwoLockdownOff => Disengage(c.lockdown)
  }

  /** The events of one action. */
  function Effects(a: Action, outputs: set<Pin>): (es: seq<Event>)
    // only the feedback sequences touch the tone ...
    ensures !a.Signal? ==> forall i :: 0 <= i < |es| ==> es[i] != ToneToggle && !es[i].TonePeriod?
    // ... and the actuator operations never drive an LED
    ensures !a.Signal? ==> Untouched(es, Indicators.GreenLed) && Untouched(es, Indicators.RedLed)
  {
    match a
    case Decide => []
    case Signal(period, led) => Indicators.Feedback(period, led, outputs)
    case Unlatch(l) => CorrectPinEffect(l, outputs).events
    case Engage(l) => LockdownOnEffect(l, outputs).events
    case Disengage(l) => LockdownOffEffect(l, outputs).events
  }

  /** The tone period after one action: a feedback sequence retunes the tone. */
  function ToneAfter(a: Action, period: uint16): uint16
  {
    if a.Signal? then a.period else period
  }

  /** The tone period after a run of actions. */
  function PeriodAfter(actions: seq<Action>, period: uint16): (p: uint16)
    // without feedback the period is left as it was ...
    ensures (forall i :: 0 <= i < |actions| ==> !actions[i].Signal?) ==> p == period
    // ... and otherwise it is that of the last feedback sequence
    ensures forall i :: (0 <= i < |actions| && actions[i].Signal?
                         && forall j :: i < j < |actions| ==> !actions[j].Signal?) ==> p == actions[i].period
    decreases |actions|
  {
    if actions == [] then period
    else ToneAfter(actions[|actions| - 1], PeriodAfter(actions[..|actions| - 1], period))
  }

  /** One more action after a run. */
  lemma PeriodAfterOneMore(actions: seq<Action>, a: Action, period: uint16)
    ensures PeriodAfter(actions + [a], period) == ToneAfter(a, PeriodAfter(actions, period))
  {
    assert (actions + [a])[..|actions|] == actions;
  }

  /** The configuration after one dispatch per verdict in `inputs`. */
  function Execute(c: Config, inputs: seq<bool>, lockoutEnabled: bool): Config
    decreases |inputs|
  {
    if inputs == [] then c
    else Execute(Next(c, inputs[0], lockoutEnabled), inputs[1..], lockoutEnabled)
  }

  /** The actions of those dispatches, in order. */
  function Actions(c: Config, inputs: seq<bool>, lockoutEnabled: bool): seq<Action>
    decreases |inputs|
  {
    if inputs == [] then []
    else [ActionOf(c)] + Actions(Next(c, inputs[0], lockoutEnabled), inputs[1..], lockoutEnabled)
  }

  /** The events of a run of actions, in order, given the events of each action. */
  function Flatten(actions: seq<Action>, effects: Action -> seq<Event>): seq<Event>
    decreases |actions|
  {
    if actions == [] then []
    else effects(actions[0]) + Flatten(actions[1..], effects)
  }

  /** The events of each action on a board whose outputs are `outputs`. */
  function EffectsOn(outputs: set<Pin>): Action -> seq<Event>
  {
    a => Effects(a, outputs)
  }

  /** `n` dispatches that all see the same verdict. */
  function Repeat(correct: bool, n: nat): seq<bool>
  {
    seq(n, _ => correct)
  }

  /** Verdicts for k rejected attempts: a rejection in Zero, then the dispatch of OneWrong. */
  function Rejections(k: nat): seq<bool>
  {
    if k == 0 then [] else [false, false] + Rejections(k - 1)
  }

  /** Running two batches of dispatches is running them one after the other. */
  lemma {:induction false} ExecuteAppend(c: Config, a: seq<bool>, b: seq<bool>, lockoutEnabled: bool)
    ensures Execute(c, a + b, lockoutEnabled) == Execute(Execute(c, a, lockoutEnabled), b, lockoutEnabled)
    decreases |a|
  {
    if a == [] {
      assert a + b == b;
    } else {
      assert (a + b)[0] == a[0];
      assert (a + b)[1..] == a[1..] + b;
      ExecuteAppend(Next(c, a[0], lockoutEnabled), a[1..], b, lockoutEnabled);
    }
  }

  /** ... and so are their actions. */
  lemma {:induction false} ActionsAppend(c: Config, a: seq<bool>, b: seq<bool>, lockoutEnabled: bool)
    ensures Actions(c, a + b, lockoutEnabled)
            == Actions(c, a, lockoutEnabled) + Actions(Execute(c, a, lockoutEnabled), b, lockoutEnabled)
    decreases |a|
  {
    if a == [] {
      assert a + b == b;
    } else {
      assert (a + b)[0] == a[0];
      assert (a + b)[1..] == a[1..] + b;
      ActionsAppend(Next(c, a[0], lockoutEnabled), a[1..], b, lockoutEnabled);
    }
  }

  /** The events of two runs of actions are the events of the first, then those of
      the second. */
  lemma {:induction false} FlattenAppend(xs: seq<Action>, ys: seq<Action>, effects: Action -> seq<Event>)
    ensures Flatten(xs + ys, effects) == Flatten(xs, effects) + Flatten(ys, effects)
    decreases |xs|
  {
    if xs == [] {
      assert xs + ys == ys;
    } else {
      assert (xs + ys)[0] == xs[0];
      assert (xs + ys)[1..] == xs[1..] + ys;
      FlattenAppend(xs[1..], ys, effects);
    }
  }

  /** A pin that no action of a run drives is not driven by the run. */
  lemma {:induction false} FlattenUntouched(actions: seq<Action>, effects: Action -> seq<Event>, pin: Pin)
    requires forall i :: 0 <= i < |actions| ==> Untouched(effects(actions[i]), pin)
    ensures Untouched(Flatten(actions, effects), pin)
    decreases |actions|
  {
    if actions != [] {
      var rest := actions[1..];
      assert forall i :: 0 <= i < |rest| ==> rest[i] == actions[i + 1];
      FlattenUntouched(rest, effects, pin);
      UntouchedAppend(effects(actions[0]), Flatten(rest, effects), pin);
    }
  }

  /** One more dispatch after a run: the configuration takes one more step and the
      events grow by those of the action the reached state performs. */
  lemma OneMoreDispatch(c: Config, inputs: seq<bool>, correct: bool, lockoutEnabled: bool, outputs: set<Pin>)
    ensures Execute(c, inputs + [correct], lockoutEnabled) == Next(Execute(c, inputs, lockoutEnabled), correct, lockoutEnabled)
    ensures Actions(c, inputs + [correct], lockoutEnabled)
            == Actions(c, inputs, lockoutEnabled) + [ActionOf(Execute(c, inputs, lockoutEnabled))]
    ensures Flatten(Actions(c, inputs + [correct], lockoutEnabled), EffectsOn(outputs))
            == Flatten(Actions(c, inputs, lockoutEnabled), EffectsOn(outputs))
               + Effects(ActionOf(Execute(c, inputs, lockoutEnabled)), outputs)
  {
    var mid := Execute(c, inputs, lockoutEnabled);
    var action := ActionOf(mid);
    var effects := EffectsOn(outputs);
    var before := Actions(c, inputs, lockoutEnabled);
    ExecuteAppend(c, inputs, [correct], lockoutEnabled);
    ActionsAppend(c, inputs, [correct], lockoutEnabled);
    assert [correct][1..] == [];
    assert Execute(mid, [correct], lockoutEnabled) == Execute(Next(mid, correct, lockoutEnabled), [], lockoutEnabled);
    assert Actions(mid, [correct], lockoutEnabled) == [action] + [];
    assert Actions(c, inputs + [correct], lockoutEnabled) == before + [action];
    FlattenAppend(before, [action], effects);
    assert [action][1..] == [];
    assert Flatten([action], effects) == effects(action) + [];
    assert effects(action) == Effects(action, outputs);
  }

  /** State Zero decides on the verdict alone: OneCorrect exactly when the password
      matched, OneWrong exactly when it did not; it emits nothing, and neither the
      counter nor the lockdown flags change. */
  lemma ZeroDecides(c: Config, correct: bool, lockoutEnabled: bool, outputs: set<Pin>)
    requires c.phase == Zero
    ensures Next(c, correct, lockoutEnabled).phase == OneCorrect <==> correct
    ensures Next(c, correct, lockoutEnabled).phase == OneWrong <==> !correct
    ensures var d := Next(c, correct, lockoutEnabled);
            d.numErrors == c.numErrors && d.lockdown == c.lockdown && d.appLockdown == c.appLockdown
    ensures Effects(ActionOf(c), outputs) == []
  {
  }

  /** An accepted attempt (without a pending window release) takes three dispatches
      and returns to Zero with the error counter cleared, giving the accept feedback
      and then releasing the latch. The later verdicts `b1`, `b2` are not consulted. */
  lemma AcceptedAttempt(c: Config, b1: bool, b2: bool, lockoutEnabled: bool)
    requires c.phase == Zero && !(lockoutEnabled && c.appLockdown)
    ensures Execute(c, [true, b1, b2], lockoutEnabled) == c.(numErrors := 0, passwordCorrect := true)
    ensures Actions(c, [true, b1, b2], lockoutEnabled)
            == [Decide, Signal(Indicators.AcceptPeriod, Indicators.GreenLed), Unlatch(c.lockdown)]
  {
    var inputs := [true, b1, b2];
    assert inputs[1..] == [b1, b2] && inputs[1..][1..] == [b2] && inputs[1..][1..][1..] == [];
    var c1 := c.(phase := OneCorrect, passwordCorrect := true);
    var c2 := c1.(phase := TwoCorrect, numErrors := 0);
    assert Next(c, true, lockoutEnabled) == c1;
    assert Next(c1, b1, lockoutEnabled) == c2;
    assert Execute(c2, [b2], lockoutEnabled) == c2.(phase := Zero);
    assert Actions(c2, [b2], lockoutEnabled) == [Unlatch(c.lockdown)] + [];
  }

  /** The events of an accepted attempt: the latch relay is pulsed exactly once and
      ends inactive, and the red LED is never driven. */
  lemma AcceptedAttemptEvents(lockdown: bool, outputs: set<Pin>, init: bool)
    requires SolenoidRelay in outputs
    ensures var es := Flatten([Decide, Signal(Indicators.AcceptPeriod, Indicators.GreenLed), Unlatch(lockdown)], EffectsOn(outputs));
            Count(es, Clear(SolenoidRelay)) == 1 && Level(SolenoidRelay, init, es)
            && Untouched(es, Indicators.RedLed)
  {
    var actions := [Decide, Signal(Indicators.AcceptPeriod, Indicators.GreenLed), Unlatch(lockdown)];
    var feedback := Indicators.Feedback(Indicators.AcceptPeriod, Indicators.GreenLed, outputs);
    var release := CorrectPinEffect(lockdown, outputs).events;
    assert actions[1..] == actions[1..2] + [Unlatch(lockdown)] && actions[1..][1..][1..] == [];
    assert Flatten(actions[1..][1..], EffectsOn(outputs)) == release + [];
    assert Flatten(actions, EffectsOn(outputs)) == [] + (feedback + (release + []));
    assert [] + (feedback + (release + [])) == feedback + release;
    Indicators.FeedbackTouchesOnlyItsLed(Indicators.AcceptPeriod, Indicators.GreenLed, outputs, SolenoidRelay, init);
    Indicators.FeedbackTouchesOnlyItsLed(Indicators.AcceptPeriod, Indicators.GreenLed, outputs, Indicators.RedLed, init);
    UntouchedCount(feedback, SolenoidRelay);
    CorrectPinAlwaysPulsesLatch(lockdown, outputs, init);
    CountAppend(feedback, release, Clear(SolenoidRelay));
    LevelAppend(SolenoidRelay, init, feedback, release);
    PulseDrivesOnlyItsPin(SolenoidRelay, outputs, Indicators.RedLed);
    PulseDrivesOnlyItsPin(MotorForward, outputs, Indicators.RedLed);
    UntouchedAppend(Pulse(SolenoidRelay, outputs), if lockdown then Pulse(MotorForward, outputs) else [], Indicators.RedLed);
    UntouchedAppend(feedback, release, Indicators.RedLed);
  }

  /** A rejected attempt that does not trigger the lockout takes two dispatches and
      returns to Zero with one more error counted (modulo 256), giving only the
      reject feedback. The later verdict `b` is not consulted. */
  lemma RejectedAttempt(c: Config, b: bool, lockoutEnabled: bool)
    requires c.phase == Zero && !(lockoutEnabled && (c.numErrors + 1) % 0x100 >= 3)
    ensures Execute(c, [false, b], lockoutEnabled)
            == c.(numErrors := (c.numErrors + 1) % 0x100, passwordCorrect := false)
    ensures Actions(c, [false, b], lockoutEnabled) == [Decide, Signal(Indicators.RejectPeriod, Indicators.RedLed)]
  {
    assert [false, b][1..] == [b] && [b][1..] == [];
    var c1 := c.(phase := OneWrong, passwordCorrect := false);
    assert Next(c, false, lockoutEnabled) == c1;
    assert Execute(c1, [b], lockoutEnabled) == Next(c1, b, lockoutEnabled);
    assert Actions(c1, [b], lockoutEnabled) == [ActionOf(c1)] + [];
  }

  /** The events of a rejected attempt drive no pin but the red LED: the latch, the
      window motor and the green LED are left alone. */
  lemma RejectedAttemptEvents(outputs: set<Pin>, pin: Pin)
    requires pin != Indicators.RedLed
    ensures Untouched(Flatten([Decide, Signal(Indicators.RejectPeriod, Indicators.RedLed)], EffectsOn(outputs)), pin)
  {
    var actions := [Decide, Signal(Indicators.RejectPeriod, Indicators.RedLed)];
    var feedback := Indicators.Feedback(Indicators.RejectPeriod, Indicators.RedLed, outputs);
    assert actions[1..] == [Signal(Indicators.RejectPeriod, Indicators.RedLed)] && actions[1..][1..] == [];
    assert Flatten(actions[1..], EffectsOn(outputs)) == feedback + [];
    assert Flatten(actions, EffectsOn(outputs)) == [] + (feedback + []);
    assert [] + (feedback + []) == feedback;
    Indicators.FeedbackTouchesOnlyItsLed(Indicators.RejectPeriod, Indicators.RedLed, outputs, pin, false);
  }

  /** With the lockout policy on, the rejection that brings the counter to 3 or more
      engages the window lock on the way back to Zero. */
  lemma LockingRejection(c: Config, b1: bool, b2: bool)
    requires c.phase == Zero && (c.numErrors + 1) % 0x100 >= 3
    ensures Execute(c, [false, b1, b2], true)
            == c.(numErrors := (c.numErrors + 1) % 0x100, passwordCorrect := false, lockdown := true)
    ensures Actions(c, [false, b1, b2], true)
            == [Decide, Signal(Indicators.RejectPeriod, Indicators.RedLed), Engage(c.lockdown)]
  {
    var inputs := [false, b1, b2];
    assert inputs[1..] == [b1, b2] && inputs[1..][1..] == [b2] && inputs[1..][1..][1..] == [];
    var c1 := c.(phase := OneWrong, passwordCorrect := false);
    var c2 := c1.(phase := TwoLockdownOn, numErrors := (c.numErrors + 1) % 0x100);
    assert Next(c, false, true) == c1;
    assert Next(c1, b1, true) == c2;
    assert Execute(c2, [b2], true) == c2.(phase := Zero, lockdown := true);
    assert Actions(c2, [b2], true) == [Engage(c.lockdown)] + [];
  }

  /** k rejected attempts in a row (in the shipped build, or with the lockout
      policy on as long as they stay below three errors) leave the machine in Zero
      with the counter advanced by k modulo 256. */
  lemma {:induction false} RejectionsAccumulate(c: Config, k: nat, lockoutEnabled: bool)
    requires c.phase == Zero && (lockoutEnabled ==> c.numErrors + k < 3)
    ensures Execute(c, Rejections(k), lockoutEnabled)
            == c.(numErrors := (c.numErrors + k) % 0x100, passwordCorrect := if k == 0 then c.passwordCorrect else false)
    decreases k
  {
    if k > 0 {
      var rest := Rejections(k - 1);
      var n := (c.numErrors + 1) % 0x100;
      assert Rejections(k) == [false, false] + rest;
      ExecuteAppend(c, [false, false], rest, lockoutEnabled);
      RejectedAttempt(c, false, lockoutEnabled);
      var mid := c.(numErrors := n, passwordCorrect := false);
      assert Execute(c, [false, false], lockoutEnabled) == mid;
      RejectionsAccumulate(mid, k - 1, lockoutEnabled);
      CountOneMore(c.numErrors, k);
      assert Execute(mid, rest, lockoutEnabled) == c.(numErrors := (c.numErrors + k) % 0x100, passwordCorrect := false);
    }
  }

  /** Counting one more error after k - 1 of them, all modulo 256, is counting k. */
  lemma CountOneMore(n: byte, k: nat)
    requires k > 0
    ensures ((n + 1) % 0x100 + (k - 1)) % 0x100 == (n + k) % 0x100
  {
    if n == 0xFF {
      assert (n + 1) % 0x100 == 0;
      assert n + k == 0x100 + (k - 1);
    }
  }

  /** ... and do nothing but password checks and reject feedback: in particular the
      latch is never released. */
  lemma {:induction false} RejectionsOnlySignal(c: Config, k: nat, lockoutEnabled: bool)
    requires c.phase == Zero && (lockoutEnabled ==> c.numErrors + k < 3)
    ensures var actions := Actions(c, Rejections(k), lockoutEnabled);
            |actions| == 2 * k
            && forall i :: 0 <= i < |actions| ==>
                 actions[i] == Decide || actions[i] == Signal(Indicators.RejectPeriod, Indicators.RedLed)
    decreases k
  {
    if k > 0 {
      var rest := Rejections(k - 1);
      assert Rejections(k) == [false, false] + rest;
      ActionsAppend(c, [false, false], rest, lockoutEnabled);
      RejectedAttempt(c, false, lockoutEnabled);
      var mid := Execute(c, [false, false], lockoutEnabled);
      RejectionsOnlySignal(mid, k - 1, lockoutEnabled);
      var before := Actions(c, [false, false], lockoutEnabled);
      var after := Actions(mid, rest, lockoutEnabled);
      forall i | 0 <= i < |before + after|
        ensures (before + after)[i] == Decide || (before + after)[i] == Signal(Indicators.RejectPeriod, Indicators.RedLed)
      {
        if i < |before| {
          assert (before + after)[i] == before[i];
        } else {
          assert (before + after)[i] == after[i - |before|];
        }
      }
    }
  }

  /** The counter is eight bits wide: 256 more rejections bring it back where it was. */
  lemma CounterWrapsAfter256(c: Config, k: nat)
    requires c.phase == Zero
    ensures Execute(c, Rejections(k + 256), false).numErrors == Execute(c, Rejections(k), false).numErrors
  {
    RejectionsAccumulate(c, k, false);
    RejectionsAccumulate(c, k + 256, false);
  }

  /** With the lockout policy on, the rejected attempt that brings the counter to
      three engages the window lock: after the k rejections that bring it to two
      (two of them from a clean start) and one more, the machine is back in Zero
      with three errors counted and the lock engaged. The verdict `b` of the last
      dispatch is not consulted. */
  lemma LockoutAfterThreeRejections(c: Config, k: nat, b: bool)
    requires c.phase == Zero && c.numErrors + k == 2 && !c.lockdown
    ensures var end := Execute(c, Rejections(k) + [false, false, b], true);
            end.phase == Zero && end.numErrors == 3 && end.lockdown
  {
    RejectionsAccumulate(c, k, true);
    var mid := Execute(c, Rejections(k), true);
    assert mid.phase == Zero && mid.numErrors == 2;
    LockingRejection(mid, false, b);
    ExecuteAppend(c, Rejections(k), [false, false, b], true);
  }

  /** ... and the only actuator operation on the way is that one engage, at the end. */
  lemma LockoutActions(c: Config, k: nat, b: bool)
    requires c.phase == Zero && c.numErrors + k == 2 && !c.lockdown
    ensures var actions := Actions(c, Rejections(k) + [false, false, b], true);
            |actions| == 2 * k + 3 && actions[2 * k + 2] == Engage(false)
            && forall i :: 0 <= i < 2 * k + 2 ==>
                 actions[i] == Decide || actions[i] == Signal(Indicators.RejectPeriod, Indicators.RedLed)
  {
    RejectionsAccumulate(c, k, true);
    RejectionsOnlySignal(c, k, true);
    var mid := Execute(c, Rejections(k), true);
    assert mid.phase == Zero && mid.numErrors == 2 && !mid.lockdown;
    LockingRejection(mid, false, b);
    ActionsAppend(c, Rejections(k), [false, false, b], true);
    var before := Actions(c, Rejections(k), true);
    var after := Actions(mid, [false, false, b], true);
    assert after == [Decide, Signal(Indicators.RejectPeriod, Indicators.RedLed), Engage(false)];
    forall i | 0 <= i < 2 * k + 2
      ensures (before + after)[i] == Decide || (before + after)[i] == Signal(Indicators.RejectPeriod, Indicators.RedLed)
    {
      if i < 2 * k {
        assert (before + after)[i] == before[i];
      } else {
        assert (before + after)[i] == after[i - 2 * k];
      }
    }
    assert (before + after)[2 * k + 2] == after[2];
  }

  /** Outside the lockdown states and with the window lock released. */
  predicate Ordinary(c: Config)
  {
    !c.phase.TwoLockdownOn? && !c.phase.TwoLockdownOff? && !c.lockdown
  }

  /** Actions that leave the window motor alone. */
  predicate Quiet(a: Action)
  {
    || a == Decide
    || a == Signal(Indicators.AcceptPeriod, Indicators.GreenLed)
    || a == Signal(Indicators.RejectPeriod, Indicators.RedLed)
    || a == Unlatch(false)
  }

  /** In the shipped build the lockdown states are never reached and the window lock
      is never engaged, whatever the verdicts: every action is quiet. */
  lemma {:induction false} ShippedStaysOrdinary(c: Config, inputs: seq<bool>)
    requires Ordinary(c)
    ensures Ordinary(Execute(c, inputs, false))
    ensures forall i :: 0 <= i < |Actions(c, inputs, false)| ==> Quiet(Actions(c, inputs, false)[i])
    decreases |inputs|
  {
    if inputs != [] {
      var rest := Actions(Next(c, inputs[0], false), inputs[1..], false);
      ShippedStaysOrdinary(Next(c, inputs[0], false), inputs[1..]);
      assert Quiet(ActionOf(c));
      assert forall i :: 0 <= i < |rest| ==> ([ActionOf(c)] + rest)[i + 1] == rest[i];
    }
  }

  /** Quiet actions never drive the window motor outputs. */
  lemma QuietLeavesMotorAlone(a: Action, outputs: set<Pin>, pin: Pin)
    requires Quiet(a) && (pin == MotorForward || pin == MotorBackward)
    ensures Untouched(Effects(a, outputs), pin)
  {
    match a
    case Decide =>
    case Signal(period, led) =>
      Indicators.FeedbackTouchesOnlyItsLed(period, led, outputs, pin, false);
    case Unlatch(_) =>
      assert Effects(a, outputs) == Pulse(SolenoidRelay, outputs) + [];
      PulseDrivesOnlyItsPin(SolenoidRelay, outputs, pin);
  }

  /** In the shipped build, from outside the lockdown states, no event of any run
      drives either window motor output. */
  lemma ShippedLeavesMotorAlone(c: Config, inputs: seq<bool>, outputs: set<Pin>)
    requires Ordinary(c)
    ensures Untouched(Flatten(Actions(c, inputs, false), EffectsOn(outputs)), MotorForward)
    ensures Untouched(Flatten(Actions(c, inputs, false), EffectsOn(outputs)), MotorBackward)
  {
    ShippedStaysOrdinary(c, inputs);
    var actions := Actions(c, inputs, false);
    forall pin | pin == MotorForward || pin == MotorBackward
      ensures Untouched(Flatten(actions, EffectsOn(outputs)), pin)
    {
      forall k | 0 <= k < |actions| ensures Untouched(EffectsOn(outputs)(actions[k]), pin) {
        QuietLeavesMotorAlone(actions[k], outputs, pin);
      }
      FlattenUntouched(actions, EffectsOn(outputs), pin);
    }
  }

  /** The release state is unreachable even with the lockout policy on: only the
      application's own lockdown copy leads there, and nothing ever sets it. */
  lemma {:induction false} ReleaseNeverRuns(c: Config, inputs: seq<bool>, lockoutEnabled: bool)
    requires !c.appLockdown && !c.phase.TwoLockdownOff?
    ensures !Execute(c, inputs, lockoutEnabled).appLockdown
    ensures !Execute(c, inputs, lockoutEnabled).phase.TwoLockdownOff?
    decreases |inputs|
  {
    if inputs != [] {
      ReleaseNeverRuns(Next(c, inputs[0], lockoutEnabled), inputs[1..], lockoutEnabled);
    }
  }

  /** The two deciding states as they read if `#if 0` is switched to `#if 1` in
      place: the lockout branch picks a next state, and the unconditional
      assignment that follows `#endif` then replaces it. */
  function NextAsWritten(c: Config, correct: bool, lockoutEnabled: bool): (d: Config)
    // the deciding states' successor does not depend on the branch ...
    ensures c.phase.OneCorrect? ==> d.phase == TwoCorrect
    ensures c.phase.OneWrong? ==> d.phase == Zero
    // ... so no dispatch ever enters a lockdown state, whatever the flag
    ensures !d.phase.TwoLockdownOn? && !d.phase.TwoLockdownOff?
  {
    match c.phase
    case OneCorrect =>
      var picked := if lockoutEnabled && c.appLockdown then TwoLockdownOff else TwoCorrect;
      c.(phase := picked, numErrors := 0).(phase := TwoCorrect)
    case OneWrong =>
      var n := (c.numErrors + 1) % 0x100;
      var picked := if lockoutEnabled && n >= 3 then TwoLockdownOn else Zero;
      c.(phase := picked, numErrors := n).(phase := Zero)
    case _ => Next(c, correct, lockoutEnabled)
  }

  /** As written, switching the lockout branch on changes nothing: every dispatch
      is the shipped one. */
  lemma LockoutBranchAsWrittenIsDead(c: Config, correct: bool)
    ensures NextAsWritten(c, correct, true) == Next(c, correct, false)
  {
  }

  /** The input that shows it: the third consecutive error. The intended machine
      moves to TwoLockdownOn; the code as written goes back to Zero. */
  lemma ThirdErrorAsWrittenDoesNotLock()
    ensures var c := Config(OneWrong, 2, false, false, false);
            Next(c, false, true).phase == TwoLockdownOn && NextAsWritten(c, false, true).phase == Zero
  {
  }

  /** The application: its state variable, counter and flags, and the drivers it
      calls. */
  class Controller {
    /** Selects the compiled-out lockout branch (off in the shipped build). */
    const lockoutEnabled: bool
    const hw: Board
    const cred: CredentialInput
    const ctl: Actuators

    var stateVar: nat
    var isPasswordCorrect: bool
    var appInLockdown: bool
    var numErrors: byte

    ghost predicate Valid()
      reads this, cred
    {
      cred.Valid() && stateVar < |Dispatch|
    }

    /** The application state as a value. */
    ghost function Cfg(): Config
      reads this, ctl
      requires stateVar < |Dispatch|
    {
      Config(Dispatch[stateVar], numErrors, isPasswordCorrect, appInLockdown, ctl.inLockdown)
    }

    /** Static initialisation: state Zero, no errors, both flags clear. */
    constructor (hw: Board, cred: CredentialInput, ctl: Actuators, lockoutEnabled: bool)
      requires cred.Valid()
      ensures this.hw == hw && this.cred == cred && this.ctl == ctl && this.lockoutEnabled == lockoutEnabled
      ensures Valid()
      ensures Cfg() == Config(Zero, 0, false, false, ctl.inLockdown)
    {
      this.hw := hw;
      this.cred := cred;
      this.ctl := ctl;
      this.lockoutEnabled := lockoutEnabled;
      stateVar := Index(Zero);
      isPasswordCorrect := false;
      appInLockdown := false;
      numErrors := 0;
    }

    /** Driver start-up, keypad first, then the indicators, then the actuators. */
    method InitDrivers()
      modifies hw`outputs, hw`trace, hw`tonePeriod
      ensures hw.outputs == old(hw.outputs) + {RowPin(0), RowPin(1), RowPin(2), RowPin(3)}
                            + {Indicators.GreenLed, Indicators.RedLed}
                            + {MotorForward, MotorBackward, SolenoidRelay, LightbulbRelay}
      ensures hw.trace == old(hw.trace) + [Set(MotorForward), Set(MotorBackward), Set(SolenoidRelay)]
      ensures hw.tonePeriod == 1001
    {
      MatrixPortInit(hw);
      Indicators.DriverInit(hw);
      ctl.DriverInit(hw);
    }

    /** Checks the password and branches on the verdict. */
    method StateZero()
      requires Valid()
      modifies this`stateVar, this`isPasswordCorrect
      ensures Valid()
      ensures isPasswordCorrect <==> Matches(cred.pinData[..])
      ensures Dispatch[stateVar] == if isPasswordCorrect then OneCorrect else OneWrong
    {
      isPasswordCorrect := cred.IsCorrect();
      if isPasswordCorrect {
        stateVar := Index(OneCorrect);
      } else {
        stateVar := Index(OneWrong);
      }
    }

    /** Clears the error counter and gives the accept feedback. */
    method StateOneCorrect()
      requires Valid()
      modifies this`stateVar, this`numErrors, hw`trace, hw`toneOn, hw`tonePeriod
      ensures Valid()
      ensures numErrors == 0
      ensures Dispatch[stateVar] == if lockoutEnabled && appInLockdown then TwoLockdownOff else TwoCorrect
      ensures hw.trace == old(hw.trace) + Indicators.Feedback(Indicators.AcceptPeriod, Indicators.GreenLed, hw.outputs)
      ensures hw.toneOn == old(hw.toneOn) && hw.tonePeriod == Indicators.AcceptPeriod
    {
      numErrors := 0;
      var done := Indicators.CorrectPin(hw);
      if lockoutEnabled && appInLockdown {
        stateVar := Index(TwoLockdownOff);
      } else {
        stateVar := Index(TwoCorrect);
      }
    }

    /** Counts one more error (wrapping at 256) and gives the reject feedback. */
    method StateOneWrong()
      requires Valid()
      modifies this`stateVar, this`numErrors, hw`trace, hw`toneOn, hw`tonePeriod
      ensures Valid()
      ensures numErrors == (old(numErrors) + 1) % 0x100
      ensures Dispatch[stateVar] == if lockoutEnabled && numErrors >= 3 then TwoLockdownOn else Zero
      ensures hw.trace == old(hw.trace) + Indicators.Feedback(Indicators.RejectPeriod, Indicators.RedLed, hw.outputs)
      ensures hw.toneOn == old(hw.toneOn) && hw.tonePeriod == Indicators.RejectPeriod
    {
      numErrors := (numErrors + 1) % 0x100;
      var done := Indicators.WrongPin(hw);
      if lockoutEnabled && numErrors >= 3 {
        stateVar := Index(TwoLockdownOn);
      } else {
        stateVar := Index(Zero);
      }
    }

    /** Releases the latch, then back to Zero. */
    method StateTwoCorrect()
      requires Valid()
      modifies this`stateVar, ctl, hw`trace
      ensures Valid()
      ensures Dispatch[stateVar] == Zero
      ensures var e := CorrectPinEffect(old(ctl.inLockdown), hw.outputs);
              ctl.inLockdown == e.inLockdown && hw.trace == old(hw.trace) + e.events
    {
      var ok := ctl.CorrectPin(hw);
      stateVar := Index(Zero);
    }

    /** Engages the window lock, then back to Zero. */
    method StateTwoLockdownOn()
      requires Valid()
      modifies this`stateVar, ctl, hw`trace
      ensures Valid()
      ensures Dispatch[stateVar] == Zero
      ensures var e := LockdownOnEffect(old(ctl.inLockdown), hw.outputs);
              ctl.inLockdown == e.inLockdown && hw.trace == old(hw.trace) + e.events
    {
      var ok := ctl.LockdownOn(hw);
      stateVar := Index(Zero);
    }

    /** Releases the window lock, then on to the latch release. */
    method StateTwoLockdownOff()
      requires Valid()
      modifies this`stateVar, ctl, hw`trace
      ensures Valid()
      ensures Dispatch[stateVar] == TwoCorrect
      ensures var e := LockdownOffEffect(old(ctl.inLockdown), hw.outputs);
              ctl.inLockdown == e.inLockdown && hw.trace == old(hw.trace) + e.events
    {
      var ok := ctl.LockdownOff(hw);
      stateVar := Index(TwoCorrect);
    }

    /** One pass of the main loop: call the state function the table holds for the
        current state variable. */
    method Step()
      requires Valid()
      modifies this`stateVar, this`numErrors, this`isPasswordCorrect, ctl, hw`trace, hw`toneOn, hw`tonePeriod
      ensures Valid()
      ensures Cfg() == Next(old(Cfg()), Matches(cred.pinData[..]), lockoutEnabled)
      ensures hw.trace == old(hw.trace) + Effects(ActionOf(old(Cfg())), hw.outputs)
      ensures hw.toneOn == old(hw.toneOn)
      ensures hw.tonePeriod == ToneAfter(ActionOf(old(Cfg())), old(hw.tonePeriod))
    {
      match Dispatch[stateVar]
      case Zero => StateZero();
      case OneCorrect => StateOneCorrect();
      case OneWrong => StateOneWrong();
      case TwoCorrect => StateTwoCorrect();
      case TwoLockdownOn => StateTwoLockdownOn();
      case TwoLockdownOff => StateTwoLockdownOff();
    }

    /** The first `steps` passes of the endless main loop, with the credential
        buffer as it stands. In the shipped build, starting outside the lockdown
        states, the window motor is never driven. */
    method Run(steps: nat)
      requires Valid()
      modifies this`stateVar, this`numErrors, this`isPasswordCorrect, ctl, hw`trace, hw`toneOn, hw`tonePeriod
      ensures Valid()
      ensures Cfg() == Execute(old(Cfg()), Repeat(Matches(cred.pinData[..]), steps), lockoutEnabled)
      ensures hw.trace == old(hw.trace)
                          + Flatten(Actions(old(Cfg()), Repeat(Matches(cred.pinData[..]), steps), lockoutEnabled), EffectsOn(hw.outputs))
      ensures hw.toneOn == old(hw.toneOn)
      ensures hw.tonePeriod
              == PeriodAfter(Actions(old(Cfg()), Repeat(Matches(cred.pinData[..]), steps), lockoutEnabled), old(hw.tonePeriod))
      ensures !lockoutEnabled && Ordinary(old(Cfg())) ==>
                Ordinary(Cfg()) && Untouched(hw.trace[|old(hw.trace)|..], MotorForward)
                && Untouched(hw.trace[|old(hw.trace)|..], MotorBackward)
    {
      ghost var start := Cfg();
      ghost var correct := Matches(cred.pinData[..]);
      ghost var outputs := hw.outputs;
      var i := 0;
      while i < steps
        invariant 0 <= i <= steps && Valid()
        invariant correct == Matches(cred.pinData[..])
        invariant Cfg() == Execute(start, Repeat(correct, i), lockoutEnabled)
        invariant hw.outputs == outputs
        invariant hw.trace == old(hw.trace) + Flatten(Actions(start, Repeat(correct, i), lockoutEnabled), EffectsOn(outputs))
        invariant hw.toneOn == old(hw.toneOn)
        invariant hw.tonePeriod == PeriodAfter(Actions(start, Repeat(correct, i), lockoutEnabled), old(hw.tonePeriod))
      {
        ghost var done := Flatten(Actions(start, Repeat(correct, i), lockoutEnabled), EffectsOn(outputs));
        ghost var action := ActionOf(Cfg());
        Step();
        ghost var emitted := Effects(action, outputs);
        assert hw.trace == old(hw.trace) + done + emitted;
        assert Repeat(correct, i + 1) == Repeat(correct, i) + [correct];
        OneMoreDispatch(start, Repeat(correct, i), correct, lockoutEnabled, outputs);
        AppendAssociates(old(hw.trace), done, emitted);
        PeriodAfterOneMore(Actions(start, Repeat(correct, i), lockoutEnabled), action, old(hw.tonePeriod));
        i := i + 1;
      }
      if !lockoutEnabled && Ordinary(start) {
        ShippedStaysOrdinary(start, Repeat(correct, steps));
        ShippedLeavesMotorAlone(start, Repeat(correct, steps), hw.outputs);
        assert hw.trace[|old(hw.trace)|..] == Flatten(Actions(start, Repeat(correct, steps), false), EffectsOn(hw.outputs));
      }
    }
  }
}
