/**
  The board as the lock's decision logic sees it: digital I/O pins addressed by
  (port, pin) with a configured direction, the tone generator (a timer whose
  period can be changed and whose counter can be switched on and off), the
  serial transmitter, and the busy-wait delay. Register-level behaviour is not
  modelled; every effect the core has on the outside world is appended to an
  ordered trace of events instead.
*/
module Hardware {

  /** uint8_t */
  type byte = x: int | 0 <= x < 0x100
  /** uint16_t */
  type uint16 = x: int | 0 <= x < 0x1_0000
  /** uint32_t */
  type uint32 = x: int | 0 <= x < 0x1_0000_0000

  datatype Port = PortA | PortB | PortC | PortD | PortE
  type PinNumber = x: int | 0 <= x < 32
  datatype Pin = Pin(port: Port, number: PinNumber)
  datatype Direction = Input | Output

  /** One observable effect on the board. */
  datatype Event =
    | Set(pin: Pin)                 // output driven high through the set register
    | Clear(pin: Pin)               // output driven low through the clear register
    | Write(pin: Pin, level: bool)  // output level written through the data register
    | Wait(count: uint32)           // busy-wait of `count` loop iterations
    | TonePeriod(period: uint16)    // new modulus (period) of the tone timer
    | ToneToggle                    // tone timer counter switched on or off
    | Send(data: byte)              // byte handed to the serial transmitter

  /** The event a GPIO write produces: none at all when the pin is not an output. */
  function IfOutput(pin: Pin, outputs: set<Pin>, e: Event): seq<Event>
  {
    if pin in outputs then [e] else []
  }

  /** Does `e` change the output level of `pin`? */
  predicate Drives(e: Event, pin: Pin)
  {
    (e.Set? || e.Clear? || e.Write?) && e.pin == pin
  }

  /** No event of `es` changes the level of `pin`. */
  predicate Untouched(es: seq<Event>, pin: Pin)
  {
    forall i :: 0 <= i < |es| ==> !Drives(es[i], pin)
  }

  /** Level of `pin` after one event, starting from `level`. */
  function Apply(pin: Pin, level: bool, e: Event): bool
  {
    match e
    case Set(p) => if p == pin then true else level
    case Clear(p) => if p == pin then false else level
    case Write(p, l) => if p == pin then l else level
    case _ => level
  }

  /** Output level of `pin` after the events `es`, starting from `init`. */
  function Level(pin: Pin, init: bool, es: seq<Event>): bool
    decreases |es|
  {
    if es == [] then init else Level(pin, Apply(pin, init, es[0]), es[1..])
  }

  /** Number of occurrences of `e` in `es`. */
  function Count(es: seq<Event>, e: Event): nat
    decreases |es|
  {
    if es == [] then 0 else (if es[0] == e then 1 else 0) + Count(es[1..], e)
  }

  lemma {:induction false} LevelAppend(pin: Pin, init: bool, a: seq<Event>, b: seq<Event>)
    ensures Level(pin, init, a + b) == Level(pin, Level(pin, init, a), b)
    decreases |a|
  {
    if a == [] {
      assert a + b == b;
    } else {
      assert (a + b)[0] == a[0];
      assert (a + b)[1..] == a[1..] + b;
      LevelAppend(pin, Apply(pin, init, a[0]), a[1..], b);
    }
  }

  lemma {:induction false} CountAppend(a: seq<Event>, b: seq<Event>, e: Event)
    ensures Count(a + b, e) == Count(a, e) + Count(b, e)
    decreases |a|
  {
    if a == [] {
      assert a + b == b;
    } else {
      assert (a + b)[0] == a[0];
      assert (a + b)[1..] == a[1..] + b;
      CountAppend(a[1..], b, e);
    }
  }

  /** Events that never drive a pin leave its level where it was. */
  lemma {:induction false} UntouchedLevel(pin: Pin, init: bool, es: seq<Event>)
    requires Untouched(es, pin)
    ensures Level(pin, init, es) == init
    decreases |es|
  {
    if es != [] {
      assert !Drives(es[0], pin);
      assert Untouched(es[1..], pin) by {
        forall i | 0 <= i < |es[1..]| ensures !Drives(es[1..][i], pin) {
          assert es[1..][i] == es[i + 1];
        }
      }
      UntouchedLevel(pin, init, es[1..]);
    }
  }

  /** An event that is not in a trace occurs in it zero times. */
  lemma {:induction false} CountAbsent(es: seq<Event>, e: Event)
    requires forall i :: 0 <= i < |es| ==> es[i] != e
    ensures Count(es, e) == 0
    decreases |es|
  {
    if es != [] {
      assert es[0] != e;
      CountAbsent(es[1..], e);
    }
  }

  /** Two runs of events that leave `pin` alone leave it alone together. */
  lemma UntouchedAppend(a: seq<Event>, b: seq<Event>, pin: Pin)
    requires Untouched(a, pin) && Untouched(b, pin)
    ensures Untouched(a + b, pin)
  {
    forall i | 0 <= i < |a + b| ensures !Drives((a + b)[i], pin) {
      if i < |a| {
        assert (a + b)[i] == a[i];
      } else {
        assert (a + b)[i] == b[i - |a|];
      }
    }
  }

  /** Events that never drive `pin` contain no set and no clear of it. */
  lemma UntouchedCount(es: seq<Event>, pin: Pin)
    requires Untouched(es, pin)
    ensures Count(es, Set(pin)) == 0 && Count(es, Clear(pin)) == 0
  {
    assert forall i :: 0 <= i < |es| ==> !Drives(es[i], pin);
    CountAbsent(es, Set(pin));
    CountAbsent(es, Clear(pin));
  }

  /** Regrouping appended traces (stated once so that callers need not re-derive it
      from sequence extensionality inside larger proofs). */
  lemma AppendAssociates(a: seq<Event>, b: seq<Event>, c: seq<Event>)
    ensures a + b + c == a + (b + c)
  {
  }

  /**
    The board's peripherals. `outputs` mirrors the port data-direction registers,
    `toneOn` the counter-enable bit of the tone timer and `tonePeriod` its modulus.
  */
  class Board {
    var outputs: set<Pin>
    var trace: seq<Event>
    var toneOn: bool
    var tonePeriod: uint16

    /** Out of reset: every pin is an input, the timer is stopped, nothing has happened. */
    constructor ()
      ensures outputs == {} && trace == [] && !toneOn && tonePeriod == 0
    {
      outputs := {};
      trace := [];
      toneOn := false;
      tonePeriod := 0;
    }

    /** Configures a pin. The direction bit is OR-ed in, so asking for an input
        never turns an output back into an input. */
    method PortInit(pin: Pin, io: Direction)
      modifies this`outputs
      ensures outputs == if io == Output then old(outputs) + {pin} else old(outputs)
    {
      if io == Output {
        outputs := outputs + {pin};
      }
    }

    /** Drives an output high; fails without effect on a pin that is not an output. */
    method SetData(pin: Pin) returns (ok: bool)
      modifies this`trace
      ensures ok <==> pin in outputs
      ensures trace == old(trace) + IfOutput(pin, outputs, Set(pin))
    {
      ok := pin in outputs;
      if ok {
        trace := trace + [Set(pin)];
      }
    }

    /** Drives an output low; fails without effect on a pin that is not an output. */
    method ClearData(pin: Pin) returns (ok: bool)
      modifies this`trace
      ensures ok <==> pin in outputs
      ensures trace == old(trace) + IfOutput(pin, outputs, Clear(pin))
    {
      ok := pin in outputs;
      if ok {
        trace := trace + [Clear(pin)];
      }
    }

    /** Writes a level to an output; fails without effect on a pin that is not an output. */
    method WriteData(pin: Pin, level: bool) returns (ok: bool)
      modifies this`trace
      ensures ok <==> pin in outputs
      ensures trace == old(trace) + IfOutput(pin, outputs, Write(pin, level))
    {
      ok := pin in outputs;
      if ok {
        trace := trace + [Write(pin, level)];
      }
    }

    /** Reads an input whose sensed level is `sensed`. On a pin configured as an
        output the read fails and the caller's variable keeps its 0. */
    method ReadData(pin: Pin, sensed: bool) returns (ok: bool, value: bool)
      ensures ok <==> pin !in outputs
      ensures value <==> ok && sensed
    {
      ok := pin !in outputs;
      value := ok && sensed;
    }

    /** The blocking delay: only its length is observable. */
    method Delay(count: uint32)
      modifies this`trace
      ensures trace == old(trace) + [Wait(count)]
    {
      trace := trace + [Wait(count)];
    }

    /** Tone timer start-up: a fixed modulus of 1001, counter left stopped. */
    method PwmInit()
      modifies this`tonePeriod
      ensures tonePeriod == 1001
    {
      tonePeriod := 1001;
    }

    /** Replaces the tone period; reports whether the modulus register reads back the
        new value, which it always does for a 16-bit counter. */
    method ChangeCounter(counter: uint16) returns (ok: bool)
      modifies this`tonePeriod, this`trace
      ensures ok && tonePeriod == counter
      ensures trace == old(trace) + [TonePeriod(counter)]
    {
      tonePeriod := counter;
      trace := trace + [TonePeriod(counter)];
      ok := tonePeriod % 0x1_0000 == counter;
    }

    /** Switches the tone timer's counter on when off and off when on. */
    method ToggleSignal()
      modifies this`toneOn, this`trace
      ensures toneOn == !old(toneOn)
      ensures trace == old(trace) + [ToneToggle]
    {
      toneOn := !toneOn;
      trace := trace + [ToneToggle];
    }

    /** Hands a byte to the transmitter when it is ready (`txReady` stands for
        "data register empty and receiver idle"); otherwise nothing is sent. */
    method UartSend(data: byte, txReady: bool) returns (ok: bool)
      modifies this`trace
      ensures ok == txReady
      ensures trace == old(trace) + (if txReady then [Send(data)] else [])
    {
      ok := txReady;
      if ok {
        trace := trace + [Send(data)];
      }
    }
  }
}
