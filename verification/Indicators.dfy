/**
  Feedback to the person at the door: a tone whose pitch tells accept from reject,
  and three blinks of the green (accept) or red (reject) LED while it sounds.
*/
module Indicators {
  import opened Hardware

  const GreenLed := Pin(PortA, 1)
  const RedLed := Pin(PortA, 2)

  /** Tone timer modulus for the accept and the reject tone. */
  const AcceptPeriod: uint16 := 500
  const RejectPeriod: uint16 := 1000

  /** Busy-wait length of each half of a blink. */
  const BlinkHold: uint32 := 200000
  const BlinkCount: nat := 3

  /** One blink: LED on, hold, LED off, hold. */
  function BlinkCycle(led: Pin, outputs: set<Pin>): seq<Event>
  {
    IfOutput(led, outputs, Set(led)) + [Wait(BlinkHold)] + IfOutput(led, outputs, Clear(led)) + [Wait(BlinkHold)]
  }

  /** n blinks in a row. */
  function Blinks(n: nat, led: Pin, outputs: set<Pin>): seq<Event>
  {
    if n == 0 then [] else Blinks(n - 1, led, outputs) + BlinkCycle(led, outputs)
  }

  /** A whole feedback sequence: set the pitch, tone on, three blinks, tone off. */
  function Feedback(period: uint16, led: Pin, outputs: set<Pin>): (es: seq<Event>)
    // the pitch is set before the tone starts, and switching the tone off comes last
    ensures |es| >= 3 && es[0] == TonePeriod(period) && es[1] == ToneToggle && es[|es| - 1] == ToneToggle
  {
    [TonePeriod(period), ToneToggle] + Blinks(BlinkCount, led, outputs) + [ToneToggle]
  }

  /** One more blink extends the blinks before it. */
  lemma CycleAppends(start: seq<Event>, n: nat, led: Pin, outputs: set<Pin>)
    ensures start + Blinks(n, led, outputs) + IfOutput(led, outputs, Set(led)) + [Wait(BlinkHold)]
              + IfOutput(led, outputs, Clear(led)) + [Wait(BlinkHold)]
            == start + Blinks(n + 1, led, outputs)
  {
    var x := start + Blinks(n, led, outputs);
    var on, hold, off := IfOutput(led, outputs, Set(led)), [Wait(BlinkHold)], IfOutput(led, outputs, Clear(led));
    AppendAssociates(x, on, hold);
    AppendAssociates(x, on + hold, off);
    AppendAssociates(x, on + hold + off, hold);
    AppendAssociates(start, Blinks(n, led, outputs), BlinkCycle(led, outputs));
  }

  /** Blinking never switches the tone. */
  lemma {:induction false} BlinksLeaveToneAlone(n: nat, led: Pin, outputs: set<Pin>)
    ensures forall i :: 0 <= i < |Blinks(n, led, outputs)| ==> Blinks(n, led, outputs)[i] != ToneToggle
  {
    if n > 0 {
      BlinksLeaveToneAlone(n - 1, led, outputs);
      var before := Blinks(n - 1, led, outputs);
      var cycle := BlinkCycle(led, outputs);
      forall i | 0 <= i < |before + cycle| ensures (before + cycle)[i] != ToneToggle {
        if i >= |before| {
          assert (before + cycle)[i] == cycle[i - |before|];
        } else {
          assert (before + cycle)[i] == before[i];
        }
      }
    }
  }

  /** Blinking never drives a pin other than its own LED. */
  lemma {:induction false} BlinksStayOnTheirLed(n: nat, led: Pin, outputs: set<Pin>, other: Pin)
    requires other != led
    ensures Untouched(Blinks(n, led, outputs), other)
  {
    if n > 0 {
      BlinksStayOnTheirLed(n - 1, led, outputs, other);
      var before := Blinks(n - 1, led, outputs);
      var cycle := BlinkCycle(led, outputs);
      forall i | 0 <= i < |before + cycle| ensures !Drives((before + cycle)[i], other) {
        if i >= |before| {
          assert (before + cycle)[i] == cycle[i - |before|];
        } else {
          assert (before + cycle)[i] == before[i];
        }
      }
    }
  }

  /** One blink of a configured LED sets it once, clears it once and leaves it off. */
  lemma BlinkCycleShape(led: Pin, outputs: set<Pin>, init: bool)
    requires led in outputs
    ensures Count(BlinkCycle(led, outputs), Set(led)) == 1
    ensures Count(BlinkCycle(led, outputs), Clear(led)) == 1
    ensures !Level(led, init, BlinkCycle(led, outputs))
  {
    var cycle := BlinkCycle(led, outputs);
    assert cycle == [Set(led), Wait(BlinkHold), Clear(led), Wait(BlinkHold)];
    var s1, s2, s3 := cycle[1..], cycle[2..], cycle[3..];
    assert s1 == [Wait(BlinkHold), Clear(led), Wait(BlinkHold)];
    assert s2 == [Clear(led), Wait(BlinkHold)];
    assert s3 == [Wait(BlinkHold)] && s3[1..] == [];
    assert s1[1..] == s2 && s2[1..] == s3;
    assert Count(s3, Set(led)) == 0 && Count(s3, Clear(led)) == 0;
    assert Count(s2, Set(led)) == 0 && Count(s2, Clear(led)) == 1;
    assert Count(s1, Set(led)) == 0 && Count(s1, Clear(led)) == 1;
    assert !Level(led, false, s3);
    assert !Level(led, true, s2);
    assert !Level(led, true, s1);
  }

  /** With the LED configured, n blinks set it n times and clear it n times, and
      leave it off. */
  lemma {:induction false} BlinksCount(n: nat, led: Pin, outputs: set<Pin>, init: bool)
    requires led in outputs
    ensures Count(Blinks(n, led, outputs), Set(led)) == n
    ensures Count(Blinks(n, led, outputs), Clear(led)) == n
    ensures n > 0 ==> !Level(led, init, Blinks(n, led, outputs))
  {
    if n > 0 {
      var before := Blinks(n - 1, led, outputs);
      var cycle := BlinkCycle(led, outputs);
      BlinksCount(n - 1, led, outputs, init);
      BlinkCycleShape(led, outputs, Level(led, init, before));
      CountAppend(before, cycle, Set(led));
      CountAppend(before, cycle, Clear(led));
      LevelAppend(led, init, before, cycle);
    }
  }

  /** Each feedback sequence switches the tone exactly twice, so the tone is left
      as it was found. */
  lemma FeedbackTogglesToneTwice(period: uint16, led: Pin, outputs: set<Pin>)
    ensures Count(Feedback(period, led, outputs), ToneToggle) == 2
  {
    var blinks := Blinks(BlinkCount, led, outputs);
    BlinksLeaveToneAlone(BlinkCount, led, outputs);
    CountAbsent(blinks, ToneToggle);
    CountAppend([TonePeriod(period), ToneToggle], blinks, ToneToggle);
    CountAppend([TonePeriod(period), ToneToggle] + blinks, [ToneToggle], ToneToggle);
    assert [TonePeriod(period), ToneToggle][1..] == [ToneToggle];
  }

  /** Each feedback sequence blinks its LED exactly three times, a set followed by a
      clear each time, and leaves the LED off. */
  lemma FeedbackBlinksThreeTimes(period: uint16, led: Pin, outputs: set<Pin>, init: bool)
    requires led in outputs
    ensures Count(Feedback(period, led, outputs), Set(led)) == 3
    ensures Count(Feedback(period, led, outputs), Clear(led)) == 3
    ensures !Level(led, init, Feedback(period, led, outputs))
  {
    var head: seq<Event> := [TonePeriod(period), ToneToggle];
    var blinks := Blinks(BlinkCount, led, outputs);
    var tail: seq<Event> := [ToneToggle];
    BlinksCount(BlinkCount, led, outputs, Level(led, init, head));
    CountAppend(head, blinks, Set(led));
    CountAppend(head + blinks, tail, Set(led));
    CountAppend(head, blinks, Clear(led));
    CountAppend(head + blinks, tail, Clear(led));
    assert head[1..][1..] == [] && tail[1..] == [];
    LevelAppend(led, init, head, blinks);
    LevelAppend(led, init, head + blinks, tail);
  }

  /** A feedback sequence never drives a pin other than its own LED: the accept
      sequence leaves the red LED alone and the reject sequence the green one. */
  lemma FeedbackTouchesOnlyItsLed(period: uint16, led: Pin, outputs: set<Pin>, other: Pin, init: bool)
    requires other != led
    ensures Untouched(Feedback(period, led, outputs), other)
    ensures Level(other, init, Feedback(period, led, outputs)) == init
  {
    BlinksStayOnTheirLed(BlinkCount, led, outputs, other);
    var es := Feedback(period, led, outputs);
    var blinks := Blinks(BlinkCount, led, outputs);
    forall i | 0 <= i < |es| ensures !Drives(es[i], other) {
      if 2 <= i < 2 + |blinks| {
        assert es[i] == blinks[i - 2];
      }
    }
    UntouchedLevel(other, init, es);
  }

  /** Configures both LEDs as outputs and starts the tone timer. */
  method DriverInit(hw: Board)
    modifies hw`outputs, hw`tonePeriod
    ensures hw.outputs == old(hw.outputs) + {GreenLed, RedLed}
    ensures hw.tonePeriod == 1001
  {
    hw.PortInit(GreenLed, Output);
    hw.PortInit(RedLed, Output);
    hw.PwmInit();
  }

  /** The sequence both feedback operations share, for a given pitch and LED. */
  method Signal(hw: Board, period: uint16, led: Pin) returns (done: bool)
    modifies hw`trace, hw`toneOn, hw`tonePeriod
    ensures done
    ensures hw.trace == old(hw.trace) + Feedback(period, led, hw.outputs)
    ensures hw.toneOn == old(hw.toneOn) && hw.tonePeriod == period
  {
    var changed := hw.ChangeCounter(period);
    hw.ToggleSignal();
    ghost var start := hw.trace;
    for i := 0 to BlinkCount
      invariant hw.trace == start + Blinks(i, led, hw.outputs)
      invariant hw.toneOn == !old(hw.toneOn) && hw.tonePeriod == period
    {
      var ok := hw.SetData(led);
      hw.Delay(BlinkHold);
      ok := hw.ClearData(led);
      hw.Delay(BlinkHold);
      CycleAppends(start, i, led, hw.outputs);
    }
    hw.ToggleSignal();
    done := true;
  }

  /** Accept feedback: high-pitched tone (period 500) and the green LED. */
  method CorrectPin(hw: Board) returns (done: bool)
    modifies hw`trace, hw`toneOn, hw`tonePeriod
    ensures done
    ensures hw.trace == old(hw.trace) + Feedback(AcceptPeriod, GreenLed, hw.outputs)
    ensures hw.toneOn == old(hw.toneOn) && hw.tonePeriod == AcceptPeriod
  {
    done := Signal(hw, AcceptPeriod, GreenLed);
  }

  /** Reject feedback: low-pitched tone (period 1000) and the red LED. */
  method WrongPin(hw: Board) returns (done: bool)
    modifies hw`trace, hw`toneOn, hw`tonePeriod
    ensures done
    ensures hw.trace == old(hw.trace) + Feedback(RejectPeriod, RedLed, hw.outputs)
    ensures hw.toneOn == old(hw.toneOn) && hw.tonePeriod == RejectPeriod
  {
    done := Signal(hw, RejectPeriod, RedLed);
  }
}
