/** Press emulation: the panel drives output pins to imitate a human operating
    the factory switches. Every pin write, blocking delay and storage write is
    recorded as an `Effect`; a `Press` names one emulated gesture. */
module Presses {
  import opened Codec

  /** A millisecond timestamp or interval as the 32-bit clock counts it. */
  type Millis = x: int | 0 <= x < 0x1_0000_0000

  /** Hardware revision of the board; below 6 the hold output is active-low. */
  const Revision: nat := 5

  const ToggleWait: nat := 500   // short press and pulse half-period
  const LongHold: nat := 3500    // long traction press
  const StartupWait: nat := 4000 // settle time before the boot replay
  const Offset: int := 0         // selector offset used by the boot pulse table

  // Output pins.
  const DmrOut: nat := 2
  const DmlOut: nat := 3
  const IsgOut: nat := 5
  const AhOut: nat := 7

  /** Level that means "pressed" on the hold output. */
  const HoldActive: bool := Revision >= 6

  /** One side effect: a pin write, a blocking delay, or a storage write. */
  datatype Effect = Put(pin: nat, high: bool) | Sleep(ms: nat) | Program(data: Byte)

  /** An emulated gesture: a short or long traction press, an ISG pulse, or
      n clockwise / counter-clockwise selector pulses. */
  datatype Press = TractShort | TractLong | IsgPulse | Cw(n: int) | Ccw(n: int)

  /** `tractPress`: drive the hold output to its pressed level, wait, release. */
  function TractPressEffects(long: bool): seq<Effect>
  {
    [Put(AhOut, HoldActive), Sleep(if long then LongHold else ToggleWait), Put(AhOut, !HoldActive)]
  }

  /** The ISG toggle the boot replay performs (a 500 ms high pulse). */
  function IsgPulseEffects(): seq<Effect>
  {
    [Put(IsgOut, true), Sleep(ToggleWait), Put(IsgOut, false)]
  }

  /** One selector pulse: 500 ms high, then 500 ms low. */
  function Pulse(pin: nat): seq<Effect>
  {
    [Put(pin, true), Sleep(ToggleWait), Put(pin, false), Sleep(ToggleWait)]
  }

  /** The pulses `clockWise`/`counterClockWise` emit for a count `n`; a count of
      zero or less emits nothing, as the source's `for` loop does. */
  function Pulses(pin: nat, n: int): seq<Effect>
    decreases n
  {
    if n <= 0 then [] else Pulses(pin, n - 1) + Pulse(pin)
  }

  function Render(p: Press): seq<Effect>
  {
    match p
    case TractShort => TractPressEffects(false)
    case TractLong => TractPressEffects(true)
    case IsgPulse => IsgPulseEffects()
    case Cw(n) => Pulses(DmrOut, n)
    case Ccw(n) => Pulses(DmlOut, n)
  }

  function RenderAll(ps: seq<Press>): seq<Effect>
  {
    if ps == [] then [] else Render(ps[0]) + RenderAll(ps[1..])
  }

  lemma AppendAssoc(x: seq<Effect>, y: seq<Effect>, z: seq<Effect>)
    ensures x + y + z == x + (y + z)
  {
  }

  lemma RenderOne(p: Press)
    ensures RenderAll([p]) == Render(p)
  {
    assert [p][1..] == [];
  }

  /** Total time the effects block the loop, in milliseconds. */
  function Duration(es: seq<Effect>): nat
  {
    if es == [] then 0 else (if es[0].Sleep? then es[0].ms else 0) + Duration(es[1..])
  }

  /** Number of occurrences of one effect. */
  function Count(es: seq<Effect>, e: Effect): nat
  {
    if es == [] then 0 else (if es[0] == e then 1 else 0) + Count(es[1..], e)
  }

  lemma {:induction false} DurationAppend(a: seq<Effect>, b: seq<Effect>)
    ensures Duration(a + b) == Duration(a) + Duration(b)
  {
    if a == [] {
      assert a + b == b;
    } else {
      assert (a + b)[1..] == a[1..] + b;
      DurationAppend(a[1..], b);
    }
  }

  lemma {:induction false} CountAppend(a: seq<Effect>, b: seq<Effect>, e: Effect)
    ensures Count(a + b, e) == Count(a, e) + Count(b, e)
  {
    if a == [] {
      assert a + b == b;
    } else {
      assert (a + b)[1..] == a[1..] + b;
      CountAppend(a[1..], b, e);
    }
  }

  lemma {:induction false} RenderAllAppend(a: seq<Press>, b: seq<Press>)
    ensures RenderAll(a + b) == RenderAll(a) + RenderAll(b)
  {
    if a == [] {
      assert a + b == b;
    } else {
      assert (a + b)[0] == a[0];
      assert (a + b)[1..] == a[1..] + b;
      RenderAllAppend(a[1..], b);
    }
  }

  /** A traction press is active-low on this revision: it pulls the hold output
      low, waits 500 ms (short) or 3500 ms (long), and lets it go high again. */
  lemma TractPressActiveLow(long: bool)
    ensures TractPressEffects(long)[0] == Put(AhOut, false)
    ensures TractPressEffects(long)[2] == Put(AhOut, true)
    ensures Duration(TractPressEffects(long)) == if long then 3500 else 500
  {
    var es := TractPressEffects(long);
    assert Duration(es[2..]) == 0 by { assert es[2..][1..] == []; }
    assert Duration(es[1..]) == Duration(es[2..]) + (if long then 3500 else 500) by { assert es[1..][1..] == es[2..]; }
  }

  lemma PulseDuration(pin: nat)
    ensures Duration(Pulse(pin)) == 1000
    ensures Count(Pulse(pin), Put(pin, true)) == 1
    ensures Count(Pulse(pin), Put(pin, false)) == 1
  {
    var es := Pulse(pin);
    assert es[3..][1..] == [];
    assert es[2..][1..] == es[3..];
    assert es[1..][1..] == es[2..];
    assert Duration(es[3..]) == 500 && Duration(es[2..]) == 500 && Duration(es[1..]) == 1000;
    assert Count(es[3..], Put(pin, true)) == 0 && Count(es[2..], Put(pin, true)) == 0;
    assert Count(es[1..], Put(pin, true)) == 0;
    assert Count(es[3..], Put(pin, false)) == 0 && Count(es[2..], Put(pin, false)) == 1;
    assert Count(es[1..], Put(pin, false)) == 1;
  }

  /** `n` pulses are exactly `n` high/low pairs on the one pin: the i-th effect
      is the (i mod 4)-th effect of a single pulse. */
  lemma {:induction false} PulsesShape(pin: nat, n: int)
    ensures |Pulses(pin, n)| == if n <= 0 then 0 else 4 * n
    ensures forall i :: 0 <= i < |Pulses(pin, n)| ==> Pulses(pin, n)[i] == Pulse(pin)[i % 4]
  {
    if n > 0 {
      PulsesShape(pin, n - 1);
      var prev := Pulses(pin, n - 1);
      assert |prev| == 4 * (n - 1);
      forall i | 0 <= i < |Pulses(pin, n)|
        ensures Pulses(pin, n)[i] == Pulse(pin)[i % 4]
      {
        if i >= |prev| {
          var j := i - 4 * (n - 1);
          assert 0 <= j < 4;
          assert i % 4 == j;
        }
      }
    }
  }

  /** `n` pulses block for 2 * n * 500 ms and raise the pin exactly n times. */
  lemma {:induction false} PulsesCount(pin: nat, n: int)
    ensures Duration(Pulses(pin, n)) == if n <= 0 then 0 else 1000 * n
    ensures Count(Pulses(pin, n), Put(pin, true)) == if n <= 0 then 0 else n
    ensures Count(Pulses(pin, n), Put(pin, false)) == if n <= 0 then 0 else n
  {
    if n > 0 {
      PulsesCount(pin, n - 1);
      PulseDuration(pin);
      DurationAppend(Pulses(pin, n - 1), Pulse(pin));
      CountAppend(Pulses(pin, n - 1), Pulse(pin), Put(pin, true));
      CountAppend(Pulses(pin, n - 1), Pulse(pin), Put(pin, false));
    }
  }

  /** Pulses never touch another pin and never write storage. */
  lemma PulsesOwnPin(pin: nat, n: int)
    ensures forall e :: e in Pulses(pin, n) ==> e.Sleep? || (e.Put? && e.pin == pin)
  {
    PulsesShape(pin, n);
    forall e | e in Pulses(pin, n)
      ensures e.Sleep? || (e.Put? && e.pin == pin)
    {
      var i :| 0 <= i < |Pulses(pin, n)| && Pulses(pin, n)[i] == e;
      assert e == Pulse(pin)[i % 4];
    }
  }

  /** Rendering presses never writes storage. */
  lemma {:induction false} RenderAllNoProgram(ps: seq<Press>)
    ensures forall e :: e in RenderAll(ps) ==> !e.Program?
  {
    if ps != [] {
      RenderAllNoProgram(ps[1..]);
      match ps[0]
      case Cw(n) => PulsesOwnPin(DmrOut, n);
      case Ccw(n) => PulsesOwnPin(DmlOut, n);
      case _ =>
    }
  }
}
