/** The decisions the panel makes on its preferences: the saturating mode
    selector, the timed traction gesture, the traction press that follows a
    mode change, and the presses the boot replay performs. */
module Drive {
  import opened Codec
  import opened Presses

  /** Mode after a clockwise input: one step up, stuck at CUSTOM. */
  function ModeUp(m: Byte): (r: Byte)
    ensures Smart <= r <= Custom
    ensures m <= Custom ==> m <= r
    ensures r == m <==> m == Custom
  {
    if m >= Custom then Custom else m + 1
  }

  /** Mode after a counter-clockwise input: one step down, stuck at SMART. */
  function ModeDown(m: Byte): (r: Byte)
    ensures Smart <= r
    ensures Smart <= m ==> r <= m
    ensures m <= Custom ==> r <= Custom
    ensures r == m <==> m == Smart
  {
    if m <= Smart then Smart else m - 1
  }

  /** `k` clockwise inputs in a row. */
  function ModeUpTimes(m: Byte, k: nat): Byte
  {
    if k == 0 then m else ModeUp(ModeUpTimes(m, k - 1))
  }

  /** `k` counter-clockwise inputs in a row. */
  function ModeDownTimes(m: Byte, k: nat): Byte
  {
    if k == 0 then m else ModeDown(ModeDownTimes(m, k - 1))
  }

  function Min(a: int, b: int): int { if a <= b then a else b }
  function Max(a: int, b: int): int { if a >= b then a else b }

  /** Turning up repeatedly from a real mode climbs one step per input and stops at
      CUSTOM; it never wraps around to SMART. */
  lemma {:induction false} ModeUpTimesSaturates(m: Byte, k: nat)
    requires Smart <= m <= Custom
    ensures ModeUpTimes(m, k) as int == Min(m as int + k, Custom as int)
  {
    if k > 0 {
      ModeUpTimesSaturates(m, k - 1);
    }
  }

  /** Turning down repeatedly from a real mode descends one step per input and stops
      at SMART; it never wraps around to CUSTOM. */
  lemma {:induction false} ModeDownTimesSaturates(m: Byte, k: nat)
    requires Smart <= m <= Custom
    ensures ModeDownTimes(m, k) as int == Max(m as int - k, Smart as int)
  {
    if k > 0 {
      ModeDownTimesSaturates(m, k - 1);
    }
  }

  /** Any mode the byte can hold, turned up at least once, lands in [SMART, CUSTOM];
      turned down, it never falls below SMART. */
  lemma {:induction false} ModeTimesBounded(m: Byte, k: nat)
    requires m <= 7
    ensures k >= 1 ==> Smart <= ModeUpTimes(m, k) <= Custom
    ensures Smart <= m ==> Smart <= ModeDownTimes(m, k) <= m
  {
    if k > 0 {
      ModeTimesBounded(m, k - 1);
    }
  }

  /** Elapsed time between two readings of the 32-bit millisecond clock, as the
      unsigned subtraction `t_tract - pt_tract` computes it. */
  function Elapsed(now: Millis, start: Millis): (d: Millis)
    ensures start <= now ==> d == now - start
    ensures now < start ==> d == now - start + 0x1_0000_0000
  {
    (now - start) % 0x1_0000_0000
  }

  /** Traction state after a hold of `diff` ms (lines 302-315). */
  function AfterHold(tract: Byte, diff: Millis): (r: Byte)
    ensures r <= TractTs
  {
    var t := if diff < 2500 then (if tract == TractOn then TractOff else TractOn)
             else if tract != TractTs then TractTs
             else TractOff;
    if diff >= 9000 then TractOn else t
  }

  /** The three hold lengths and what each does from every state, including the
      state 3 that a stored byte can decode to. */
  lemma TractionRules(tract: Byte, diff: Millis)
    ensures diff >= 9000 ==> AfterHold(tract, diff) == TractOn
    ensures 2500 <= diff < 9000 && tract == TractTs ==> AfterHold(tract, diff) == TractOff
    ensures 2500 <= diff < 9000 && tract != TractTs ==> AfterHold(tract, diff) == TractTs
    ensures diff < 2500 && tract == TractOn ==> AfterHold(tract, diff) == TractOff
    ensures diff < 2500 && tract != TractOn ==> AfterHold(tract, diff) == TractOn
  {
  }

  /** Every state is reachable again: a short hold toggles ON and OFF, a medium
      hold toggles TS and OFF, a very long hold resets to ON. */
  lemma TractionScenarios()
    ensures AfterHold(TractOn, 1000) == TractOff
    ensures AfterHold(TractOff, 1000) == TractOn
    ensures AfterHold(TractTs, 1000) == TractOn
    ensures AfterHold(TractOn, 5000) == TractTs
    ensures AfterHold(TractTs, 5000) == TractOff
    ensures forall t: Byte :: AfterHold(t, 9500) == TractOn
  {
  }

  /** The traction press the loop emits after a mode input (lines 336-352 and
      364-380); it depends only on the new mode and the traction state. */
  function Correction(mode: Byte, tract: Byte): (ps: seq<Press>)
    ensures |ps| <= 1
  {
    if mode == Sport then
      (if tract == TractOff then [TractShort]
       else if tract == TractTs then [TractLong]
       else [])
    else if tract == TractTs || tract == TractOff then [TractShort]
    else []
  }

  /** A long press only when landing on SPORT with TS; a short press for OFF, and for
      TS outside SPORT; nothing for ON or the out-of-range state 3. */
  lemma CorrectionRules(mode: Byte, tract: Byte)
    ensures Correction(mode, tract) == [] <==> tract != TractOff && tract != TractTs
    ensures Correction(mode, tract) == [TractLong] <==> mode == Sport && tract == TractTs
    ensures Correction(mode, tract) == [TractShort] <==>
              tract == TractOff || (tract == TractTs && mode != Sport)
  {
  }

  /** A mode input that saturates still costs a short press when traction is not ON. */
  lemma SaturatedInputStillPresses(tract: Byte)
    requires tract == TractOff || tract == TractTs
    ensures Correction(ModeUp(Custom), tract) == [TractShort]
    ensures Correction(ModeDown(Smart), tract) == [TractShort]
  {
  }

  /** Boot replay, step 1: re-assert a non-default traction state, only in SPORT. */
  function TractionReplay(p: Prefs): seq<Press>
  {
    if p.tract == TractOff then (if p.mode == Sport then [TractShort] else [])
    else if p.tract == TractTs then (if p.mode == Sport then [TractLong] else [])
    else []
  }

  /** Boot replay, step 2: the module powers up with ISG on, so toggle it if off. */
  function IsgReplay(p: Prefs): seq<Press>
  {
    if !p.isg then [IsgPulse] else []
  }

  /** Boot replay, step 3: walk the selector from its power-up position. */
  function ModeReplay(m: Byte): seq<Press>
  {
    if m == Sport then [Cw(1 - Offset)]
    else if m == Custom then [Cw(2 - Offset)]
    else if m == Smart then [Ccw(2 + Offset)]
    else if m == Comfort then [Ccw(Offset)]
    else if m == Eco then [Ccw(Offset)]
    else []
  }

  /** The presses of the boot replay, in the order they happen. */
  function BootPresses(p: Prefs): seq<Press>
  {
    TractionReplay(p) + IsgReplay(p) + ModeReplay(p.mode)
  }

  lemma RenderBootPresses(p: Prefs)
    ensures RenderAll(BootPresses(p)) ==
              RenderAll(TractionReplay(p)) + RenderAll(IsgReplay(p)) + RenderAll(ModeReplay(p.mode))
  {
    RenderAllAppend(TractionReplay(p) + IsgReplay(p), ModeReplay(p.mode));
    RenderAllAppend(TractionReplay(p), IsgReplay(p));
  }

  /** Where a press belongs in the boot replay. */
  function Phase(x: Press): nat
  {
    match x
    case TractShort => 0
    case TractLong => 0
    case IsgPulse => 1
    case Cw(_) => 2
    case Ccw(_) => 2
  }

  /** The boot replay is ordered (traction, then ISG, then selector); it presses
      traction only in SPORT, and pulses ISG exactly when ISG is off. */
  lemma BootPressesOrdered(p: Prefs)
    ensures forall i, j :: 0 <= i < j < |BootPresses(p)| ==>
              Phase(BootPresses(p)[i]) <= Phase(BootPresses(p)[j])
    ensures (TractShort in BootPresses(p)) <==> (p.mode == Sport && p.tract == TractOff)
    ensures (TractLong in BootPresses(p)) <==> (p.mode == Sport && p.tract == TractTs)
    ensures (IsgPulse in BootPresses(p)) <==> !p.isg
    ensures |BootPresses(p)| <= 3
  {
    var ps := BootPresses(p);
    var a, b := |TractionReplay(p)|, |TractionReplay(p)| + |IsgReplay(p)|;
    forall i | 0 <= i < |ps|
      ensures Phase(ps[i]) == if i < a then 0 else if i < b then 1 else 2
    {
      if i < a {
        assert ps[i] == TractionReplay(p)[i];
      } else if i < b {
        assert ps[i] == IsgReplay(p)[i - a];
      } else {
        assert ps[i] == ModeReplay(p.mode)[i - b];
      }
    }
  }

  /** At pin level the selector replay is one clockwise pulse for SPORT, two for
      CUSTOM, two counter-clockwise for SMART, and nothing for every other mode
      (ECO and COMFORT included). */
  lemma ModeReplayPins(m: Byte)
    ensures RenderAll(ModeReplay(m)) ==
              if m == Sport then Pulses(DmrOut, 1)
              else if m == Custom then Pulses(DmrOut, 2)
              else if m == Smart then Pulses(DmlOut, 2)
              else []
  {
    var ps := ModeReplay(m);
    if ps != [] {
      assert ps[1..] == [];
    }
  }

  /** Rising edges the selector replay puts on output `pin`. */
  lemma ModeReplayEdges(m: Byte, pin: nat)
    ensures Count(RenderAll(ModeReplay(m)), Put(pin, true)) ==
              if pin == DmrOut && m == Sport then 1
              else if pin == DmrOut && m == Custom then 2
              else if pin == DmlOut && m == Smart then 2
              else 0
  {
    ModeReplayPins(m);
    var rm := RenderAll(ModeReplay(m));
    if m == Sport || m == Custom || m == Smart {
      var out, n := if m == Smart then DmlOut else DmrOut, if m == Sport then 1 else 2;
      assert rm == Pulses(out, n);
      PulsesCount(out, n);
      PulsesOwnPin(out, n);
      if pin != out {
        NotInCountZero(rm, Put(pin, true));
      }
    }
  }

  /** At pin level the boot replay raises the ISG output exactly once iff ISG is off,
      and raises the selector outputs as many times as the pulse table says. */
  lemma BootPinCounts(p: Prefs)
    ensures Count(RenderAll(BootPresses(p)), Put(IsgOut, true)) == if p.isg then 0 else 1
    ensures Count(RenderAll(BootPresses(p)), Put(DmrOut, true)) ==
              if p.mode == Sport then 1 else if p.mode == Custom then 2 else 0
    ensures Count(RenderAll(BootPresses(p)), Put(DmlOut, true)) ==
              if p.mode == Smart then 2 else 0
  {
    BootEdges(p, IsgOut);
    BootEdges(p, DmrOut);
    BootEdges(p, DmlOut);
    ModeReplayEdges(p.mode, IsgOut);
    ModeReplayEdges(p.mode, DmrOut);
    ModeReplayEdges(p.mode, DmlOut);
  }

  lemma BootEdges(p: Prefs, pin: nat)
    requires pin != AhOut
    ensures Count(RenderAll(TractionReplay(p) + IsgReplay(p) + ModeReplay(p.mode)), Put(pin, true)) ==
              (if pin == IsgOut && !p.isg then 1 else 0) + Count(RenderAll(ModeReplay(p.mode)), Put(pin, true))
  {
    RenderBootPresses(p);
    var rt, rg, rm := RenderAll(TractionReplay(p)), RenderAll(IsgReplay(p)), RenderAll(ModeReplay(p.mode));
    CountAppend(rt + rg, rm, Put(pin, true));
    CountAppend(rt, rg, Put(pin, true));
    TractionReplayEdges(p, pin);
    IsgReplayEdges(p, pin);
  }

  /** The traction replay touches only the hold output. */
  lemma TractionReplayEdges(p: Prefs, pin: nat)
    requires pin != AhOut
    ensures Count(RenderAll(TractionReplay(p)), Put(pin, true)) == 0
  {
    var t := TractionReplay(p);
    if t != [] {
      RenderOne(t[0]);
      assert RenderAll(t) == TractPressEffects(t[0] == TractLong);
    }
    NotInCountZero(RenderAll(t), Put(pin, true));
  }

  /** The ISG replay raises the ISG output once when ISG is off, and nothing else. */
  lemma IsgReplayEdges(p: Prefs, pin: nat)
    ensures Count(RenderAll(IsgReplay(p)), Put(pin, true)) == if pin == IsgOut && !p.isg then 1 else 0
  {
    var g := IsgReplay(p);
    if g != [] {
      RenderOne(IsgPulse);
      var es := IsgPulseEffects();
      assert RenderAll(g) == es;
      assert es[2..][1..] == [] && es[1..][1..] == es[2..];
      assert Count(es[2..], Put(pin, true)) == 0;
      assert Count(es[1..], Put(pin, true)) == 0;
    } else {
      NotInCountZero(RenderAll(g), Put(pin, true));
    }
  }

  lemma {:induction false} NotInCountZero(es: seq<Effect>, e: Effect)
    requires e !in es
    ensures Count(es, e) == 0
  {
    if es != [] {
      NotInCountZero(es[1..], e);
    }
  }

  /** The boot replay for the stored byte 0x81 (SMART, ISG off, traction ON): one ISG
      pulse, two counter-clockwise pulses, no traction press. */
  lemma BootScenarioSmartIsgOff()
    ensures Unpack(0x81) == Prefs(Smart, false, TractOn)
    ensures BootPresses(Unpack(0x81)) == [IsgPulse, Ccw(2)]
  {
  }
}
