/** The firmware as the program runs it: the globals are the fields of one
    controller object, and the boot sequence, one pass of the main loop and the
    press emitters are methods that update them in place. Pin writes, delays and
    storage writes are appended to `trace`. Each method is proved to do what the
    functions of module Panel describe, so the loop body appears twice: once as
    those functions, once as these methods of the same shape. `Sense`, `Select`
    and `Settle` group the loop's blocks only to keep the proof of `Tick` small;
    the source has no such grouping. */
module Firmware {
  import opened Codec
  import opened Presses
  import opened Drive
  import Panel

  class Controller {
    var currentMode: Byte
    var isIsg: bool
    var tract: Byte
    var isSetup: bool
    var dmArmed: bool     // dm_i
    var isgArmed: bool    // isg_i
    var aholdArmed: bool  // ahold_i
    var held: bool        // b_theld
    var holdStart: Millis // pt_tract
    var releaseAt: Millis // t_tract
    var changed: bool     // g_changed
    /** Byte 0 of the flash sector the preferences live in. */
    var flash: Byte
    /** Every pin write, delay and storage write so far, oldest first. */
    var trace: seq<Effect>

    /** The preference globals as one value. */
    function Preferences(): Prefs
      reads this`currentMode, this`isIsg, this`tract
    {
      Prefs(currentMode, isIsg, tract)
    }

    /** The globals as one value. */
    function Snapshot(): Panel.State
      reads this`currentMode, this`isIsg, this`tract, this`isSetup, this`dmArmed, this`isgArmed,
            this`aholdArmed, this`held, this`holdStart, this`releaseAt, this`changed, this`flash
    {
      Panel.State(Preferences(), isSetup, dmArmed, isgArmed, aholdArmed, held,
                  holdStart, releaseAt, changed, flash)
    }

    /** Power-on: the globals' static initial values, `flashContents` in storage. */
    constructor (flashContents: Byte)
      ensures Snapshot() == Panel.PowerOn(flashContents)
      ensures trace == []
    {
      currentMode, isIsg, tract, isSetup := 0, false, 0, false;
      dmArmed, isgArmed, aholdArmed := true, true, true;
      held, holdStart, releaseAt, changed := false, 0, 0, false;
      flash := flashContents;
      trace := [];
    }

    /** `flashWrite`: program the byte and report whether it reads back. */
    method FlashWrite(data: Byte) returns (ok: bool)
      modifies this`flash, this`trace
      ensures flash == data && ok
      ensures trace == old(trace) + [Program(data)]
    {
      flash := data;
      trace := trace + [Program(data)];
      ok := flash == data;
    }

    /** `unpack_byte`: set the preference globals from a stored byte. */
    method UnpackByte(b: Byte)
      modifies this`isSetup, this`tract, this`isIsg, this`currentMode
      ensures Preferences() == Unpack(b) && isSetup == IsSetup(b)
    {
      isSetup := (b & SetupBit) >> 7 != 0;
      tract := (b & TractMask) >> 3;
      isIsg := (b & IsgBit) >> 5 != 0;
      currentMode := b & ModeMask;
    }

    /** `tractPress`: hold the traction button for 500 ms, or 3500 ms when `long`. */
    method TractPress(long: bool)
      modifies this`trace
      ensures trace == old(trace) + Render(if long then TractLong else TractShort)
    {
      var d := ToggleWait;
      if long {
        d := LongHold;
      }
      trace := trace + [Put(AhOut, HoldActive)];
      trace := trace + [Sleep(d)];
      trace := trace + [Put(AhOut, !HoldActive)];
    }

    /** `num` pulses on `pin`, each 500 ms high then 500 ms low. */
    method PulsePin(pin: nat, num: int)
      modifies this`trace
      ensures trace == old(trace) + Pulses(pin, num)
    {
      var i := 0;
      while i < num
        invariant 0 <= i && (num > 0 ==> i <= num) && (num <= 0 ==> i == 0)
        invariant trace == old(trace) + Pulses(pin, i)
      {
        trace := trace + [Put(pin, true)];
        trace := trace + [Sleep(ToggleWait)];
        trace := trace + [Put(pin, false)];
        trace := trace + [Sleep(ToggleWait)];
        assert trace == old(trace) + (Pulses(pin, i) + Pulse(pin));
        i := i + 1;
      }
      assert num <= 0 ==> Pulses(pin, num) == [] && i == 0;
    }

    /** `clockWise`: turn the selector `num` steps clockwise. */
    method ClockWise(num: int)
      modifies this`trace
      ensures trace == old(trace) + Render(Cw(num))
    {
      PulsePin(DmrOut, num);
    }

    /** `counterClockWise`: turn the selector `num` steps counter-clockwise. */
    method CounterClockWise(num: int)
      modifies this`trace
      ensures trace == old(trace) + Render(Ccw(num))
    {
      PulsePin(DmlOut, num);
    }

    /** The traction press the loop makes right after a mode input. */
    method ReassertTraction()
      modifies this`trace
      ensures trace == old(trace) + RenderAll(Correction(currentMode, tract))
    {
      if currentMode == Sport {
        if tract == TractOff {
          TractPress(false);
          RenderOne(TractShort);
        } else if tract == TractTs {
          TractPress(true);
          RenderOne(TractLong);
        }
      } else if tract == TractTs || tract == TractOff {
        TractPress(false);
        RenderOne(TractShort);
      }
    }

    /** The boot sequence of `main` from reading storage to the end of the replay. */
    method Boot()
      modifies this
      ensures Snapshot() == Panel.Boot(old(Snapshot())).next
      ensures trace == old(trace) + Panel.Boot(old(Snapshot())).effects
    {
      ghost var s0 := Snapshot();
      LoadPreferences();
      ghost var t1 := trace;
      trace := trace + [Sleep(StartupWait)];
      Replay();
      ghost var pre: seq<Effect> := if Plausible(s0.stored) then [] else [Program(Default)];
      AppendAssoc(old(trace), pre, [Sleep(StartupWait)]);
      AppendAssoc(old(trace), pre + [Sleep(StartupWait)], RenderAll(BootPresses(Preferences())));
    }

    /** Lines 209-218: use the stored byte if it passes the range check, otherwise
        store and use the default. */
    method LoadPreferences()
      modifies this`flash, this`trace, this`isSetup, this`tract, this`isIsg, this`currentMode
      ensures flash == BootByte(old(flash))
      ensures Preferences() == Unpack(flash) && isSetup == IsSetup(flash)
      ensures trace == old(trace) + if Plausible(old(flash)) then [] else [Program(Default)]
    {
      var data := flash;
      if data > 0xB5 || data < 0x81 {
        var ok := FlashWrite(Default);
        UnpackByte(Default);
      } else {
        UnpackByte(data);
      }
    }

    /** Lines 224-271: the presses that bring the module to the loaded preferences. */
    method Replay()
      modifies this`trace
      ensures trace == old(trace) + RenderAll(BootPresses(Preferences()))
    {
      ghost var p := Preferences();
      ghost var a, b, c := RenderAll(TractionReplay(p)), RenderAll(IsgReplay(p)), RenderAll(ModeReplay(p.mode));
      ReplayTraction();
      ReplayIsg();
      ReplayMode();
      RenderBootPresses(p);
      AppendAssoc(old(trace), a, b);
      AppendAssoc(old(trace), a + b, c);
    }

    /** Lines 224-240: in SPORT, re-assert OFF with a short press and TS with a long one. */
    method ReplayTraction()
      modifies this`trace
      ensures trace == old(trace) + RenderAll(TractionReplay(Preferences()))
    {
      if tract == TractOff {
        if currentMode == Sport {
          TractPress(false);
          RenderOne(TractShort);
        }
      } else if tract == TractTs {
        if currentMode == Sport {
          TractPress(true);
          RenderOne(TractLong);
        }
      }
    }

    /** Lines 248-252: toggle ISG off with one pulse on its output. */
    method ReplayIsg()
      modifies this`trace
      ensures trace == old(trace) + RenderAll(IsgReplay(Preferences()))
    {
      if !isIsg {
        trace := trace + [Put(IsgOut, true), Sleep(ToggleWait), Put(IsgOut, false)];
        RenderOne(IsgPulse);
      }
    }

    /** Lines 253-271: walk the selector from its power-up position. */
    method ReplayMode()
      modifies this`trace
      ensures trace == old(trace) + RenderAll(ModeReplay(currentMode))
    {
      if currentMode == Sport {
        ClockWise(1 - Offset);
        RenderOne(Cw(1 - Offset));
      } else if currentMode == Custom {
        ClockWise(2 - Offset);
        RenderOne(Cw(2 - Offset));
      } else if currentMode == Smart {
        CounterClockWise(2 + Offset);
        RenderOne(Ccw(2 + Offset));
      } else if currentMode == Comfort {
        CounterClockWise(Offset);
        RenderOne(Ccw(Offset));
      } else if currentMode == Eco {
        CounterClockWise(Offset);
        RenderOne(Ccw(Offset));
      }
    }

    /** One pass of the main loop with the inputs' levels and the clock reading
        `now`; the identification command on the serial port is not modelled.
        The blocks of the loop body run in the source's order. */
    method Tick(dmr: bool, dml: bool, isgIn: bool, ahIn: bool, now: Millis)
      modifies this
      ensures Snapshot() == Panel.Step(old(Snapshot()), Panel.Inputs(dmr, dml, isgIn, ahIn), now).next
      ensures trace == old(trace) + Panel.Step(old(Snapshot()), Panel.Inputs(dmr, dml, isgIn, ahIn), now).effects
      ensures !changed
    {
      ghost var s0 := Snapshot();
      ghost var inp := Panel.Inputs(dmr, dml, isgIn, ahIn);
      Sense(dmr, dml, isgIn, ahIn, now);
      ghost var o := Panel.Select(Snapshot(), dmr, dml);
      Select(dmr, dml);
      ghost var o7 := Panel.Settle(Snapshot(), isgIn, ahIn, now);
      Settle(isgIn, ahIn, now);
      Panel.StepUnfold(s0, inp, now);
      AppendAssoc(old(trace), o.effects, o7.effects);
    }

    /** Lines 289-318. */
    method Sense(dmr: bool, dml: bool, isgIn: bool, ahIn: bool, now: Millis)
      modifies this`dmArmed, this`isgArmed, this`aholdArmed, this`held, this`releaseAt, this`tract, this`changed
      ensures Snapshot() == Panel.Sense(old(Snapshot()), Panel.Inputs(dmr, dml, isgIn, ahIn), now)
    {
      Rearm(dmr, dml, isgIn);
      EndHold(ahIn, now);
    }

    /** Lines 329-384: both selector blocks, clockwise first. */
    method Select(dmr: bool, dml: bool)
      modifies this`currentMode, this`trace, this`changed, this`dmArmed
      ensures Snapshot() == Panel.Select(old(Snapshot()), dmr, dml).next
      ensures trace == old(trace) + Panel.Select(old(Snapshot()), dmr, dml).effects
    {
      ghost var t0 := trace;
      SelectorUp(dmr);
      ghost var t3 := trace;
      SelectorDown(dml);
      AppendAssoc(t0, t3[|t0|..], trace[|t3|..]);
    }

    /** Lines 385-403: the ISG toggle, the start of a hold, and the storage write. */
    method Settle(isgIn: bool, ahIn: bool, now: Millis)
      modifies this`isIsg, this`changed, this`isgArmed, this`holdStart, this`held, this`flash, this`trace
      ensures Snapshot() == Panel.Settle(old(Snapshot()), isgIn, ahIn, now).next
      ensures trace == old(trace) + Panel.Settle(old(Snapshot()), isgIn, ahIn, now).effects
      ensures !changed
    {
      ToggleIsg(isgIn);
      StartHold(ahIn, now);
      ghost var s6 := Snapshot();
      Persist();
      Panel.PersistFrame(s6);
    }

    /** Lines 289-294. */
    method Rearm(dmr: bool, dml: bool, isgIn: bool)
      modifies this`dmArmed, this`isgArmed
      ensures Snapshot() == Panel.Rearm(old(Snapshot()), dmr, dml, isgIn)
    {
      if dmr && dml && !dmArmed {
        dmArmed := true;
      }
      if isgIn && !isgArmed {
        isgArmed := true;
      }
    }

    /** Lines 296-318: end a timed hold and move the traction state by its length. */
    method EndHold(ahIn: bool, now: Millis)
      modifies this`aholdArmed, this`held, this`releaseAt, this`tract, this`changed
      ensures Snapshot() == Panel.Release(old(Snapshot()), ahIn, now)
    {
      if ahIn && held {
        aholdArmed := true;
        held := false;
        releaseAt := now;
        var diff: Millis := (releaseAt - holdStart) % 0x1_0000_0000;
        tract := AfterHold(tract, diff);
        changed := true;
      }
    }

    /** Lines 329-356. */
    method SelectorUp(dmr: bool)
      modifies this`currentMode, this`trace, this`changed, this`dmArmed
      ensures Snapshot() == Panel.TurnUp(old(Snapshot()), dmr).next
      ensures trace == old(trace) + Panel.TurnUp(old(Snapshot()), dmr).effects
    {
      if dmr && dmArmed {
        currentMode := ModeUp(currentMode);
        ReassertTraction();
        changed := true;
        dmArmed := false;
      }
    }

    /** Lines 357-384. */
    method SelectorDown(dml: bool)
      modifies this`currentMode, this`trace, this`changed, this`dmArmed
      ensures Snapshot() == Panel.TurnDown(old(Snapshot()), dml).next
      ensures trace == old(trace) + Panel.TurnDown(old(Snapshot()), dml).effects
    {
      if dml && dmArmed {
        currentMode := ModeDown(currentMode);
        ReassertTraction();
        changed := true;
        dmArmed := false;
      }
    }

    /** Lines 385-389. */
    method ToggleIsg(isgIn: bool)
      modifies this`isIsg, this`changed, this`isgArmed
      ensures Snapshot() == Panel.ToggleIsg(old(Snapshot()), isgIn)
    {
      if isgIn && isgArmed {
        isIsg := !isIsg;
        changed := true;
        isgArmed := false;
      }
    }

    /** Lines 391-396: start timing a hold. */
    method StartHold(ahIn: bool, now: Millis)
      modifies this`holdStart, this`held
      ensures Snapshot() == Panel.StartHold(old(Snapshot()), ahIn, now)
    {
      if ahIn && aholdArmed {
        if !held {
          holdStart := now;
        }
        held := true;
      }
    }

    /** Lines 398-403: pack and write a changed state. */
    method Persist()
      modifies this`flash, this`trace, this`changed
      ensures Snapshot() == Panel.Persist(old(Snapshot())).next
      ensures trace == old(trace) + Panel.Persist(old(Snapshot())).effects
    {
      if changed {
        var b := Pack(Preferences());
        var ok := FlashWrite(b);
        changed := false;
      }
    }

    /** The main loop run over a finite schedule of input levels and clock readings:
        the fields and the trace end as `Panel.Steps` describes. When storage starts
        in step with the preferences it stays so, and from canonical preferences
        every byte the loop writes passes the boot check. */
    method Run(schedule: seq<(Panel.Inputs, Millis)>)
      modifies this
      ensures Snapshot() == Panel.Steps(old(Snapshot()), schedule).next
      ensures trace == old(trace) + Panel.Steps(old(Snapshot()), schedule).effects
      ensures Panel.Synced(old(Snapshot())) ==> Panel.Synced(Snapshot())
      ensures Panel.Synced(old(Snapshot())) && Canonical(old(Preferences())) ==>
                Canonical(Preferences()) && Plausible(flash)
    {
      ghost var s0 := Snapshot();
      var k := 0;
      while k < |schedule|
        invariant 0 <= k <= |schedule|
        invariant Snapshot() == Panel.Steps(s0, schedule[..k]).next
        invariant trace == old(trace) + Panel.Steps(s0, schedule[..k]).effects
      {
        var (inp, now) := schedule[k];
        assert schedule[..k + 1][..k] == schedule[..k];
        ghost var r := Panel.Steps(s0, schedule[..k]);
        Tick(inp.dmr, inp.dml, inp.isg, inp.ah, now);
        AppendAssoc(old(trace), r.effects, Panel.Step(r.next, inp, now).effects);
        k := k + 1;
      }
      assert schedule[..k] == schedule;
      if Panel.Synced(s0) {
        Panel.StepsKeepSynced(s0, schedule);
        if Canonical(s0.prefs) {
          Panel.StepsKeepCanonical(s0, schedule);
        }
      }
    }
  }
}
