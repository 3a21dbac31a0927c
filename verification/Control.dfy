/**
  The actuator sequencer: the solenoid latch relay and the H-bridge that drives
  the window-lock motor forward (engage) or backward (release). Every actuation is
  an open-loop pulse: the active-low output is cleared, held for a fixed busy-wait,
  and set again. The logical lockdown flag is the only state.
*/
module Control {
  import opened Hardware

  const MotorForward := Pin(PortB, 0)
  const MotorBackward := Pin(PortB, 1)
  const SolenoidRelay := Pin(PortA, 12)
  const LightbulbRelay := Pin(PortE, 25)

  /** Busy-wait length of every actuator pulse. */
  const PulseHold: uint32 := 2000000

  /** One active-low pulse on `pin`: clear, hold, set. The GPIO writes have no
      effect when the pin is not an output; the delay happens regardless. */
  function Pulse(pin: Pin, outputs: set<Pin>): seq<Event>
  {
    IfOutput(pin, outputs, Clear(pin)) + [Wait(PulseHold)] + IfOutput(pin, outputs, Set(pin))
  }

  /** What an operation returns, the lockdown flag after it, and the events it emits. */
  datatype Outcome = Outcome(ok: bool, inLockdown: bool, events: seq<Event>)

  /** Releasing the latch; when the flag is set the motor is pulsed too. As the
      operation is written, that second pulse goes to the forward (engage) output
      and the flag is assigned true again, so the flag never changes. */
  function CorrectPinEffect(inLockdown: bool, outputs: set<Pin>): (r: Outcome)
    // always reports success and never changes the flag ...
    ensures r.ok && r.inLockdown == inLockdown
    // ... and never drives the release output
    ensures Untouched(r.events, MotorBackward)
  {
    Outcome(true, inLockdown,
            Pulse(SolenoidRelay, outputs) + (if inLockdown then Pulse(MotorForward, outputs) else []))
  }

  /** Engaging the lockdown: a no-op reporting failure when already engaged. */
  function LockdownOnEffect(inLockdown: bool, outputs: set<Pin>): (r: Outcome)
    ensures r.inLockdown
    ensures r.ok <==> !inLockdown
    ensures !r.ok ==> r.events == []
    ensures Untouched(r.events, MotorBackward) && Untouched(r.events, SolenoidRelay)
  {
    if !inLockdown then Outcome(true, true, Pulse(MotorForward, outputs))
    else Outcome(false, true, [])
  }

  /** Releasing the lockdown: a no-op reporting failure when not engaged. */
  function LockdownOffEffect(inLockdown: bool, outputs: set<Pin>): (r: Outcome)
    ensures !r.inLockdown
    ensures r.ok <==> inLockdown
    ensures !r.ok ==> r.events == []
    ensures Untouched(r.events, MotorForward) && Untouched(r.events, SolenoidRelay)
  {
    if inLockdown then Outcome(true, false, Pulse(MotorBackward, outputs))
    else Outcome(false, false, [])
  }

  /** A pulse on a configured pin is one clear followed by one set of that pin; the
      pin ends at its inactive (high) level and no other pin is driven. */
  lemma PulseShape(pin: Pin, outputs: set<Pin>, init: bool)
    requires pin in outputs
    ensures Pulse(pin, outputs) == [Clear(pin), Wait(PulseHold), Set(pin)]
    ensures Count(Pulse(pin, outputs), Clear(pin)) == 1 && Count(Pulse(pin, outputs), Set(pin)) == 1
    ensures Level(pin, init, Pulse(pin, outputs))
    ensures forall other :: other != pin ==> Untouched(Pulse(pin, outputs), other)
  {
    var es := Pulse(pin, outputs);
    assert es == [Clear(pin), Wait(PulseHold), Set(pin)];
    var s1, s2 := es[1..], es[2..];
    assert s1 == [Wait(PulseHold), Set(pin)] && s2 == [Set(pin)];
    assert s1[1..] == s2 && s2[1..] == [];
    assert s2[0] == Set(pin) && s1[0] == Wait(PulseHold);
    assert Count(s2[1..], Clear(pin)) == 0 && Count(s2[1..], Set(pin)) == 0;
    assert Count(s2, Clear(pin)) == 0;
    assert Count(s2, Set(pin)) == 1;
    assert Count(s1, Clear(pin)) == 0;
    assert Count(s1, Set(pin)) == 1;
    assert Level(pin, true, s2);
    assert Level(pin, false, s1);
    forall other | other != pin ensures Untouched(es, other) {
      assert !Drives(es[0], other) && !Drives(es[1], other) && !Drives(es[2], other);
    }
  }

  /** A pulse, configured or not, never drives any pin but its own. */
  lemma PulseDrivesOnlyItsPin(pin: Pin, outputs: set<Pin>, other: Pin)
    requires other != pin
    ensures Untouched(Pulse(pin, outputs), other)
  {
    var es := Pulse(pin, outputs);
    forall i | 0 <= i < |es| ensures !Drives(es[i], other) {
      if pin in outputs {
        assert es == [Clear(pin), Wait(PulseHold), Set(pin)];
      } else {
        assert es == [Wait(PulseHold)];
      }
    }
  }

  /** Whatever the flag, releasing the latch succeeds, leaves the flag as it was, and
      starts with exactly one pulse of the solenoid relay, which ends inactive. */
  lemma CorrectPinAlwaysPulsesLatch(inLockdown: bool, outputs: set<Pin>, init: bool)
    requires SolenoidRelay in outputs
    ensures var e := CorrectPinEffect(inLockdown, outputs);
            && e.ok && e.inLockdown == inLockdown
            && e.events[..3] == [Clear(SolenoidRelay), Wait(PulseHold), Set(SolenoidRelay)]
            && Count(e.events, Clear(SolenoidRelay)) == 1
            && Count(e.events, Set(SolenoidRelay)) == 1
            && Level(SolenoidRelay, init, e.events)
  {
    var latch := Pulse(SolenoidRelay, outputs);
    var motor := if inLockdown then Pulse(MotorForward, outputs) else [];
    PulseShape(SolenoidRelay, outputs, init);
    CountAppend(latch, motor, Clear(SolenoidRelay));
    CountAppend(latch, motor, Set(SolenoidRelay));
    CountAbsent(motor, Clear(SolenoidRelay));
    CountAbsent(motor, Set(SolenoidRelay));
    LevelAppend(SolenoidRelay, init, latch, motor);
    if inLockdown {
      assert SolenoidRelay != MotorForward;
      if MotorForward in outputs {
        PulseShape(MotorForward, outputs, init);
      }
      assert Untouched(motor, SolenoidRelay);
    }
    UntouchedLevel(SolenoidRelay, Level(SolenoidRelay, init, latch), motor);
  }

  /** A second engage with no release in between is a no-op: it reports failure,
      emits nothing and leaves the flag set. */
  lemma EngageIsIdempotent(inLockdown: bool, outputs: set<Pin>)
    ensures var first := LockdownOnEffect(inLockdown, outputs);
            && first.inLockdown
            && LockdownOnEffect(first.inLockdown, outputs) == Outcome(false, true, [])
  {
  }

  /** A release when not engaged reports failure, emits nothing, leaves the flag clear. */
  lemma ReleaseWhenClearIsNoOp(outputs: set<Pin>)
    ensures LockdownOffEffect(false, outputs) == Outcome(false, false, [])
  {
  }

  /** Engage and release are inverse: from a clear flag, engaging then releasing
      both succeed, return the flag to clear, and drive forward then backward. */
  lemma EngageThenRelease(outputs: set<Pin>)
    requires MotorForward in outputs && MotorBackward in outputs
    ensures var on := LockdownOnEffect(false, outputs);
            var off := LockdownOffEffect(on.inLockdown, outputs);
            && on.ok && off.ok && !off.inLockdown
            && on.events == [Clear(MotorForward), Wait(PulseHold), Set(MotorForward)]
            && off.events == [Clear(MotorBackward), Wait(PulseHold), Set(MotorBackward)]
  {
  }

  /** The actuator driver and its lockdown flag. */
  class Actuators {
    var inLockdown: bool

    /** The flag starts clear. */
    constructor ()
      ensures !inLockdown
    {
      inLockdown := false;
    }

    /** Configures the motor, solenoid and lightbulb pins as outputs, then drives the
        motor and solenoid outputs to their inactive (high) level. */
    method DriverInit(hw: Board)
      modifies hw`outputs, hw`trace
      ensures hw.outputs == old(hw.outputs) + {MotorForward, MotorBackward, SolenoidRelay, LightbulbRelay}
      ensures hw.trace == old(hw.trace) + [Set(MotorForward), Set(MotorBackward), Set(SolenoidRelay)]
    {
      hw.PortInit(MotorForward, Output);
      hw.PortInit(MotorBackward, Output);
      hw.PortInit(SolenoidRelay, Output);
      hw.PortInit(LightbulbRelay, Output);
      var ok := hw.SetData(MotorForward);
      ok := hw.SetData(MotorBackward);
      ok := hw.SetData(SolenoidRelay);
    }

    /** One clear-hold-set pulse on `pin`. */
    static method PulsePin(hw: Board, pin: Pin)
      modifies hw`trace
      ensures hw.trace == old(hw.trace) + Pulse(pin, hw.outputs)
    {
      var ok := hw.ClearData(pin);
      hw.Delay(PulseHold);
      ok := hw.SetData(pin);
    }

    /** Releases the latch (and, with the flag set, pulses the motor). Always reports success. */
    method CorrectPin(hw: Board) returns (ok: bool)
      modifies this, hw`trace
      ensures var e := CorrectPinEffect(old(inLockdown), hw.outputs);
              ok == e.ok && inLockdown == e.inLockdown && hw.trace == old(hw.trace) + e.events
    {
      PulsePin(hw, SolenoidRelay);
      if inLockdown {
        PulsePin(hw, MotorForward);
        inLockdown := true;
      }
      ok := true;
    }

    /** Engages the lockdown unless it already is. */
    method LockdownOn(hw: Board) returns (ok: bool)
      modifies this, hw`trace
      ensures var e := LockdownOnEffect(old(inLockdown), hw.outputs);
              ok == e.ok && inLockdown == e.inLockdown && hw.trace == old(hw.trace) + e.events
    {
      if !inLockdown {
        PulsePin(hw, MotorForward);
        inLockdown := true;
        ok := true;
      } else {
        ok := false;
      }
    }

    /** Releases the lockdown unless it is not engaged. */
    method LockdownOff(hw: Board) returns (ok: bool)
      modifies this, hw`trace
      ensures var e := LockdownOffEffect(old(inLockdown), hw.outputs);
              ok == e.ok && inLockdown == e.inLockdown && hw.trace == old(hw.trace) + e.events
    {
      if inLockdown {
        PulsePin(hw, MotorBackward);
        inLockdown := false;
        ok := true;
      } else {
        ok := false;
      }
    }
  }
}
