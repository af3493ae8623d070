/** The panel as a state machine over its globals: power-on, the boot sequence,
    and one iteration of the control loop. Each phase function below is one
    block of the loop body, in the order the loop runs them. The class in module
    Firmware runs the same blocks as methods and is proved equal to these
    functions; `Sense`, `Select` and `Settle` group the blocks only to keep that
    proof small. */
module Panel {
  import opened Codec
  import opened Presses
  import opened Drive

  /** Every global the boot sequence and the loop read or write. */
  datatype State = State(
    prefs: Prefs,       // currentMode, isIsg, tract
    setup: bool,        // isSetup
    dmArmed: bool,      // dm_i: the latch shared by both selector inputs
    isgArmed: bool,     // isg_i
    aholdArmed: bool,   // ahold_i
    held: bool,         // b_theld: a hold is being timed
    holdStart: Millis,  // pt_tract
    releaseAt: Millis,  // t_tract
    changed: bool,      // g_changed
    stored: Byte)       // byte 0 of the flash sector

  /** Levels read from the four inputs during one iteration. */
  datatype Inputs = Inputs(dmr: bool, dml: bool, isg: bool, ah: bool)

  /** A new state and the side effects that produced it, in order. */
  datatype Outcome = Outcome(next: State, effects: seq<Effect>)

  /** The globals at reset: zero-initialised, latches armed, with `flash` in storage. */
  function PowerOn(flash: Byte): (s: State)
    ensures s.stored == flash && s.dmArmed && s.isgArmed && s.aholdArmed
    ensures !s.held && !s.changed
  {
    State(Prefs(0, false, 0), false, true, true, true, false, 0, 0, false, flash)
  }

  /** Boot: validate the stored byte (falling back to, and storing, the default),
      unpack it, wait for the module to start, then replay the presses that bring
      the module to the loaded preferences. */
  function Boot(s: State): Outcome
  {
    var b := BootByte(s.stored);
    var p := Unpack(b);
    Outcome(
      s.(prefs := p, setup := IsSetup(b), stored := b),
      (if Plausible(s.stored) then [] else [Program(Default)])
        + [Sleep(StartupWait)] + RenderAll(BootPresses(p)))
  }

  /** Lines 289-294: re-arm the selector latch when both inputs read high, and the
      ISG latch when its input reads high. */
  function Rearm(s: State, dmr: bool, dml: bool, isg: bool): State
  {
    s.(dmArmed := if dmr && dml && !s.dmArmed then true else s.dmArmed,
       isgArmed := if isg && !s.isgArmed then true else s.isgArmed)
  }

  /** Lines 296-318: the hold input reads high while a hold is timed, so the hold
      ends and the traction state moves by its length. */
  function Release(s: State, ah: bool, now: Millis): State
  {
    if ah && s.held then
      s.(aholdArmed := true, held := false, releaseAt := now,
         prefs := s.prefs.(tract := AfterHold(s.prefs.tract, Elapsed(now, s.holdStart))),
         changed := true)
    else s
  }

  /** Lines 329-356: a clockwise input steps the mode up and re-asserts traction. */
  function TurnUp(s: State, dmr: bool): Outcome
  {
    if dmr && s.dmArmed then
      var m := ModeUp(s.prefs.mode);
      Outcome(s.(prefs := s.prefs.(mode := m), changed := true, dmArmed := false),
              RenderAll(Correction(m, s.prefs.tract)))
    else Outcome(s, [])
  }

  /** Lines 357-384: a counter-clockwise input steps the mode down and re-asserts
      traction. */
  function TurnDown(s: State, dml: bool): Outcome
  {
    if dml && s.dmArmed then
      var m := ModeDown(s.prefs.mode);
      Outcome(s.(prefs := s.prefs.(mode := m), changed := true, dmArmed := false),
              RenderAll(Correction(m, s.prefs.tract)))
    else Outcome(s, [])
  }

  /** Lines 385-389: the ISG input toggles the ISG preference. */
  function ToggleIsg(s: State, isg: bool): State
  {
    if isg && s.isgArmed then
      s.(prefs := s.prefs.(isg := !s.prefs.isg), changed := true, isgArmed := false)
    else s
  }

  /** Lines 391-396: the hold input starts timing a hold. */
  function StartHold(s: State, ah: bool, now: Millis): State
  {
    if ah && s.aholdArmed then
      s.(holdStart := if !s.held then now else s.holdStart, held := true)
    else s
  }

  /** Lines 398-403: a changed state is packed and written, and the flag cleared. */
  function Persist(s: State): Outcome
  {
    if s.changed then
      var b := Pack(s.prefs);
      Outcome(s.(stored := b, changed := false), [Program(b)])
    else Outcome(s, [])
  }

  /** One iteration of the control loop. */
  function Step(s: State, i: Inputs, now: Millis): Outcome
  {
    var s1 := Rearm(s, i.dmr, i.dml, i.isg);
    var s2 := Release(s1, i.ah, now);
    var o3 := TurnUp(s2, i.dmr);
    var o4 := TurnDown(o3.next, i.dml);
    var s5 := ToggleIsg(o4.next, i.isg);
    var s6 := StartHold(s5, i.ah, now);
    var o7 := Persist(s6);
    Outcome(o7.next, o3.effects + o4.effects + o7.effects)
  }

  /** Lines 289-318: the latches re-arm and a timed hold may end. */
  function Sense(s: State, i: Inputs, now: Millis): State
  {
    Release(Rearm(s, i.dmr, i.dml, i.isg), i.ah, now)
  }

  /** Lines 329-384: both selector blocks, clockwise first. */
  function Select(s: State, dmr: bool, dml: bool): Outcome
  {
    var o3 := TurnUp(s, dmr);
    var o4 := TurnDown(o3.next, dml);
    Outcome(o4.next, o3.effects + o4.effects)
  }

  /** Lines 385-403: the ISG toggle, the start of a hold, and the storage write. */
  function Settle(s: State, isg: bool, ah: bool, now: Millis): Outcome
  {
    Persist(StartHold(ToggleIsg(s, isg), ah, now))
  }

  /** `Step` as the composition of its three parts. */
  lemma StepUnfold(s: State, i: Inputs, now: Millis)
    ensures var o := Select(Sense(s, i, now), i.dmr, i.dml);
      var o7 := Settle(o.next, i.isg, i.ah, now);
      Step(s, i, now) == Outcome(o7.next, o.effects + o7.effects)
  {
  }

  /** Whether a selector input changes the mode in this iteration. */
  predicate SelectorFires(s: State, i: Inputs)
  {
    (i.dmr || i.dml) && (s.dmArmed || (i.dmr && i.dml))
  }

  /** Whether the hold input ends a timed hold in this iteration. */
  predicate HoldEnds(s: State, i: Inputs)
  {
    i.ah && s.held
  }

  /** What holds between iterations: nothing is pending, the hold latch is armed,
      the fields fit the byte, and storage holds the packed preferences. */
  predicate Synced(s: State)
  {
    !s.changed && s.aholdArmed && Fits(s.prefs) && s.stored == Pack(s.prefs)
  }

  // Frame facts about single phases, used to keep the proofs about Step small.

  lemma ReleaseFrame(s: State, ah: bool, now: Millis)
    ensures var r := Release(s, ah, now);
      && r.prefs.mode == s.prefs.mode && r.prefs.isg == s.prefs.isg
      && r.dmArmed == s.dmArmed && r.isgArmed == s.isgArmed && r.stored == s.stored
      && r.changed == (s.changed || (ah && s.held))
  {
  }

  /** Both selector blocks together: at most one of them fires. */
  lemma SelectorPhase(s: State, i: Inputs)
    ensures var o3 := TurnUp(s, i.dmr);
      var o4 := TurnDown(o3.next, i.dml);
      var fires := (i.dmr || i.dml) && s.dmArmed;
      var m := if !fires then s.prefs.mode else if i.dmr then ModeUp(s.prefs.mode) else ModeDown(s.prefs.mode);
      && o4.next == s.(prefs := s.prefs.(mode := m), changed := s.changed || fires,
                       dmArmed := s.dmArmed && !fires)
      && o3.effects + o4.effects == (if fires then RenderAll(Correction(m, s.prefs.tract)) else [])
  {
  }

  lemma StartHoldFrame(s: State, ah: bool, now: Millis)
    ensures var r := StartHold(s, ah, now);
      && r.prefs == s.prefs && r.dmArmed == s.dmArmed && r.isgArmed == s.isgArmed
      && r.aholdArmed == s.aholdArmed && r.changed == s.changed && r.stored == s.stored
  {
  }

  lemma PersistFrame(s: State)
    ensures var o := Persist(s);
      && o.next == s.(changed := false, stored := if s.changed then Pack(s.prefs) else s.stored)
      && o.effects == if s.changed then [Program(Pack(s.prefs))] else []
  {
  }

  /** The selector: at most one mode step per iteration, clockwise winning when both
      inputs read high; the shared latch is left armed only if it was armed and
      neither input read high, so it is re-armed only in an iteration where both
      read high and then fires at once. */
  lemma StepSelector(s: State, i: Inputs, now: Millis)
    ensures var n := Step(s, i, now).next;
      && n.prefs.mode == (if !SelectorFires(s, i) then s.prefs.mode
                          else if i.dmr then ModeUp(s.prefs.mode)
                          else ModeDown(s.prefs.mode))
      && n.dmArmed == (s.dmArmed && !i.dmr && !i.dml)
  {
    var s1 := Rearm(s, i.dmr, i.dml, i.isg);
    var s2 := Release(s1, i.ah, now);
    var o4 := TurnDown(TurnUp(s2, i.dmr).next, i.dml);
    var s5 := ToggleIsg(o4.next, i.isg);
    var s6 := StartHold(s5, i.ah, now);
    ReleaseFrame(s1, i.ah, now);
    SelectorPhase(s2, i);
    StartHoldFrame(s5, i.ah, now);
    PersistFrame(s6);
  }

  /** ISG: the latch re-arms before it fires, so every iteration in which the ISG
      input reads high toggles the preference, and the latch ends disarmed. */
  lemma StepIsg(s: State, i: Inputs, now: Millis)
    ensures var n := Step(s, i, now).next;
      && n.prefs.isg == (s.prefs.isg != i.isg)
      && n.isgArmed == (s.isgArmed && !i.isg)
  {
    var s1 := Rearm(s, i.dmr, i.dml, i.isg);
    var s2 := Release(s1, i.ah, now);
    var o4 := TurnDown(TurnUp(s2, i.dmr).next, i.dml);
    var s5 := ToggleIsg(o4.next, i.isg);
    var s6 := StartHold(s5, i.ah, now);
    ReleaseFrame(s1, i.ah, now);
    SelectorPhase(s2, i);
    StartHoldFrame(s5, i.ah, now);
    PersistFrame(s6);
  }

  /** Traction: it moves only when a timed hold ends, by the hold's length modulo
      2^32; with the latch armed, every iteration in which the hold input reads high
      leaves a hold being timed from `now`; the latch is never disarmed. */
  lemma StepTraction(s: State, i: Inputs, now: Millis)
    ensures var n := Step(s, i, now).next;
      && n.prefs.tract == (if HoldEnds(s, i) then AfterHold(s.prefs.tract, Elapsed(now, s.holdStart))
                           else s.prefs.tract)
      && (i.ah && s.aholdArmed ==> n.held && n.holdStart == now)
      && (!i.ah ==> n.held == s.held && n.holdStart == s.holdStart)
      && (s.aholdArmed ==> n.aholdArmed)
  {
    var s1 := Rearm(s, i.dmr, i.dml, i.isg);
    var s2 := Release(s1, i.ah, now);
    var o4 := TurnDown(TurnUp(s2, i.dmr).next, i.dml);
    var s5 := ToggleIsg(o4.next, i.isg);
    var s6 := StartHold(s5, i.ah, now);
    SelectorPhase(s2, i);
    PersistFrame(s6);
  }

  /** Effects and persistence: the only presses are the traction correction after a
      mode step; the loop ends with nothing pending; it writes exactly when something
      changed, and what it writes is the packed end-of-iteration preferences. */
  lemma StepEffects(s: State, i: Inputs, now: Millis)
    ensures var o := Step(s, i, now);
      var wrote := s.changed || HoldEnds(s, i) || SelectorFires(s, i) || i.isg;
      && !o.next.changed
      && o.next.stored == (if wrote then Pack(o.next.prefs) else s.stored)
      && o.effects == (if SelectorFires(s, i) then RenderAll(Correction(o.next.prefs.mode, o.next.prefs.tract)) else [])
                        + (if wrote then [Program(Pack(o.next.prefs))] else [])
  {
    var s1 := Rearm(s, i.dmr, i.dml, i.isg);
    var s2 := Release(s1, i.ah, now);
    var o4 := TurnDown(TurnUp(s2, i.dmr).next, i.dml);
    var s5 := ToggleIsg(o4.next, i.isg);
    var s6 := StartHold(s5, i.ah, now);
    ReleaseFrame(s1, i.ah, now);
    SelectorPhase(s2, i);
    StartHoldFrame(s5, i.ah, now);
    PersistFrame(s6);
    StepTraction(s, i, now);
  }

  /** Storage keeps pace with the preferences: once synced, every iteration leaves
      storage holding exactly the packed preferences. */
  lemma StepKeepsSynced(s: State, i: Inputs, now: Millis)
    requires Synced(s)
    ensures Synced(Step(s, i, now).next)
  {
    StepEffects(s, i, now);
    StepTraction(s, i, now);
    StepSelector(s, i, now);
  }

  /** From canonical preferences the loop only ever writes bytes that pass the boot
      check, and the preferences stay canonical. */
  lemma StepKeepsCanonical(s: State, i: Inputs, now: Millis)
    requires Synced(s) && Canonical(s.prefs)
    ensures Canonical(Step(s, i, now).next.prefs)
    ensures Plausible(Step(s, i, now).next.stored)
  {
    StepKeepsSynced(s, i, now);
    StepSelector(s, i, now);
    StepTraction(s, i, now);
    PackedRange(Step(s, i, now).next.prefs);
  }

  /** An iteration in which every input reads low changes nothing and emits nothing. */
  lemma IdleStep(s: State, now: Millis)
    requires Synced(s)
    ensures Step(s, Inputs(false, false, false, false), now) == Outcome(s, [])
  {
  }

  /** Boot: an implausible stored byte makes boot write and use the default
      (COMFORT, ISG on, traction ON); a plausible one is unpacked as it is and nothing
      is written. Either way the replay follows the 4 s start-up wait. */
  lemma BootFallback(s: State)
    ensures var o := Boot(s);
      && (!Plausible(s.stored) ==>
            o.next.stored == Default && o.next.prefs == Prefs(Comfort, true, TractOn)
            && o.effects == [Program(Default), Sleep(StartupWait)] + RenderAll(BootPresses(o.next.prefs)))
      && (Plausible(s.stored) ==>
            o.next.stored == s.stored && o.next.prefs == Unpack(s.stored)
            && o.effects == [Sleep(StartupWait)] + RenderAll(BootPresses(o.next.prefs))
            && forall e :: e in o.effects ==> !e.Program?)
  {
    DefaultMeaning();
    RenderAllNoProgram(BootPresses(Boot(s).next.prefs));
  }

  /** After boot the loop starts synced, whatever storage held at power-on. */
  lemma BootSynced(flash: Byte)
    ensures Synced(Boot(PowerOn(flash)).next)
    ensures Boot(PowerOn(flash)).next.dmArmed && Boot(PowerOn(flash)).next.isgArmed
  {
    PackUnpack(BootByte(flash));
  }

  /** A plausible stored byte can still lead the loop to write a byte that fails the
      boot check: 0x9F decodes to mode 7 with traction state 3, and toggling ISG then
      writes 0xBF, which the next boot replaces by the default. */
  lemma OutOfRangeWrite()
    ensures Plausible(0x9F)
    ensures var s := Boot(PowerOn(0x9F)).next;
      Step(s, Inputs(false, false, true, false), 0).next.stored == 0xBF
    ensures !Plausible(0xBF)
  {
  }

  /** The hold gesture as the loop sees it: the hold input reading high starts the
      timing, and the next iteration in which it reads high ends it; 1200 ms apart
      from ON gives OFF. A later counter-clockwise input that leaves SPORT then
      re-asserts OFF with a short press. */
  lemma HoldThenLeaveSport(s: State)
    requires Synced(s) && !s.held && s.dmArmed
    requires s.prefs == Prefs(Sport, true, TractOn)
    ensures var s1 := Step(s, Inputs(false, false, false, true), 1000).next;
      var s2 := Step(s1, Inputs(false, false, false, true), 2200).next;
      var s3 := Step(s2, Inputs(false, true, false, false), 5000);
      && s1.prefs.tract == TractOn && s1.held && s1.holdStart == 1000
      && s2.prefs.tract == TractOff
      && s3.next.prefs == Prefs(Comfort, true, TractOff)
      && s3.effects == TractPressEffects(false) + [Program(Pack(Prefs(Comfort, true, TractOff)))]
  {
    var s1 := Step(s, Inputs(false, false, false, true), 1000).next;
    var s2 := Step(s1, Inputs(false, false, false, true), 2200).next;
    assert Elapsed(2200, 1000) == 1200;
    var s3 := Step(s2, Inputs(false, true, false, false), 5000);
    assert RenderAll([TractShort]) == TractPressEffects(false);
  }

  /** The loop repacks on every change, with no skip-if-equal: at CUSTOM with
      traction ON, an iteration with both selector inputs high re-arms the shared
      latch, fires clockwise without moving the mode, and writes the byte storage
      already holds; the next such iteration writes it again. */
  lemma RepeatedWriteSameByte(s: State, now: Millis, later: Millis)
    requires Synced(s) && s.prefs.mode == Custom && s.prefs.tract == TractOn
    ensures var o1 := Step(s, Inputs(true, true, false, false), now);
      var o2 := Step(o1.next, Inputs(true, true, false, false), later);
      && o1.next.prefs == s.prefs && o1.effects == [Program(s.stored)]
      && o2.next.prefs == s.prefs && o2.effects == [Program(s.stored)]
  {
    var i := Inputs(true, true, false, false);
    StepEffects(s, i, now);
    StepSelector(s, i, now);
    StepIsg(s, i, now);
    StepTraction(s, i, now);
    var n := Step(s, i, now).next;
    StepKeepsSynced(s, i, now);
    StepEffects(n, i, later);
    StepSelector(n, i, later);
    StepIsg(n, i, later);
    StepTraction(n, i, later);
  }

  /** The loop over a finite schedule of input levels and clock readings: the
      iterations run in order, each from the state the previous one left, and
      their effects follow one another. */
  function Steps(s: State, schedule: seq<(Inputs, Millis)>): Outcome
  {
    if schedule == [] then Outcome(s, [])
    else
      var r := Steps(s, schedule[..|schedule| - 1]);
      var (i, now) := schedule[|schedule| - 1];
      var o := Step(r.next, i, now);
      Outcome(o.next, r.effects + o.effects)
  }

  /** Once synced, the loop stays synced over any schedule: storage always holds
      the packed preferences and nothing is left pending. */
  lemma {:induction false} StepsKeepSynced(s: State, schedule: seq<(Inputs, Millis)>)
    requires Synced(s)
    ensures Synced(Steps(s, schedule).next)
  {
    if schedule != [] {
      var prefix := schedule[..|schedule| - 1];
      StepsKeepSynced(s, prefix);
      var (i, now) := schedule[|schedule| - 1];
      StepKeepsSynced(Steps(s, prefix).next, i, now);
    }
  }

  /** From canonical synced preferences, the loop keeps them canonical over any
      schedule, and storage always holds a byte that passes the boot check. */
  lemma {:induction false} StepsKeepCanonical(s: State, schedule: seq<(Inputs, Millis)>)
    requires Synced(s) && Canonical(s.prefs)
    ensures Canonical(Steps(s, schedule).next.prefs)
    ensures Plausible(Steps(s, schedule).next.stored)
  {
    if schedule == [] {
      PackedRange(s.prefs);
    } else {
      var prefix := schedule[..|schedule| - 1];
      StepsKeepCanonical(s, prefix);
      StepsKeepSynced(s, prefix);
      var (i, now) := schedule[|schedule| - 1];
      StepKeepsCanonical(Steps(s, prefix).next, i, now);
    }
  }
}
