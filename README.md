# KSDM drive-mode panel (RP2040, sport-plus variant) in Dafny

This project models the firmware of a drive-mode control panel. The panel sits
between a vehicle's drive-mode buttons and the vehicle's electronics module.
It reads four logical inputs:

- the selector turned clockwise (DMR);
- the selector turned counter-clockwise (DML);
- the idle-stop-go button (ISG);
- the traction/hold button (AH).

It keeps three preferences in one byte of flash: the drive mode, the ISG flag
and the traction state. It drives four outputs so that the module believes a
person pressed its original switches. At boot it replays the presses that
bring the module, which powers up in its own default state, to the stored
preferences.

The modelled build is the sport-plus variant (`KSDM_VARIANT == KSDM_SP`) on
board revision 5.

Modules, leaf first:

- `Codec`: the preference byte.
  - `pack_byte` and `unpack_byte` as `Pack` and `Unpack`.
  - The boot range check [0x81, 0xB5] and the fallback to 0xA3, as `BootByte`.
  - Bytes are `bv8`.
- `Presses`: the press emitters `tractPress`, `clockWise` and
  `counterClockWise`.
  - They are modelled as pin-level effect traces (`Put(pin, level)`,
    `Sleep(ms)`, `Program(byte)`).
  - Revision 5 makes the hold press active-low.
- `Drive`: the decisions the firmware makes on the preferences.
  - The saturating mode selector.
  - The timed traction gesture. The hold length is the 32-bit unsigned
    difference of two millisecond clock readings.
  - The traction press that follows a mode change.
  - The boot replay table.
- `Panel`: the firmware as a pure state machine over its globals.
  - `PowerOn`, `Boot`, and `Step`, which is one pass of the `while(true)`
    body.
  - `Step` runs the loop's blocks in source order (lines 289-403).
- `Firmware`: the same program in imperative form.
  - The globals are the fields of a `Controller` object, and every side
    effect is appended to its `trace`.
  - `Boot`, `Tick` (one pass of the loop) and the emitters are methods.
  - Each method is proved to produce exactly the state and trace that the
    functions of `Codec`, `Presses`, `Drive` and `Panel` describe.
  - `Run` drives `Tick` over a finite schedule of input levels and clock
    readings. It is proved to end exactly as `Panel.Steps`, the loop folded
    over that schedule, describes. Lemmas about `Steps` show that storage
    keeps holding the packed preferences.

The clock is a parameter: `Tick` receives the reading `now`. Every delay is a
`Sleep` effect, not real time.

### Behaviours the code has and the model keeps

These hold as the code is written, and some of them differ from what one
might expect of such a panel:

- A short hold (< 2500 ms) from TS (traction and stability off) goes to ON,
  not to OFF (`KSDM_2040_BM.c:302-307`). Only an ON start gives OFF. One
  might expect a short hold to flip only the ON/OFF pair and so take TS to
  OFF; the code takes it to ON at line 306, and the model follows the code
  (`Drive.TractionRules`, `Drive.TractionScenarios`).
- The ISG latch re-arms when its input reads high (line 292), before the
  toggle at line 385 fires. So every iteration in which the ISG input reads
  high toggles the ISG preference (`Panel.StepIsg`). One might expect a latch
  that re-arms only once the input is released; this one does not.
- The selector latch `dm_i` is shared by both directions. It re-arms only in
  an iteration where both inputs read high, and then fires clockwise in that
  same iteration (`Panel.StepSelector`).
- `ahold_i` is never cleared. With the hold input high, each iteration ends
  any timed hold and starts a new one at `now` (`Panel.StepTraction`).
- A mode input that does not land on SPORT emits a short traction press when
  traction is OFF or TS. This happens even when the mode is already saturated
  at CUSTOM or SMART (`Drive.SaturatedInputStillPresses`).
- The boot range check accepts bytes that decode to mode 0, 6 or 7, or to
  traction state 3 (`Codec.PlausibleButNotCanonical`).
- From such a byte (0x9F), toggling ISG writes 0xBF, which the next boot
  rejects and replaces by the default (`Panel.OutOfRangeWrite`).
- COMFORT and ECO both replay zero selector pulses, so they are
  indistinguishable to the replay (`Drive.ModeReplayPins`).

## Model

| member | source | states |
|---|---|---|
| Codec.Pack | KSDM_2040_BM.c:84-91 | the packed byte always carries the setup bit 7, and bit 6 stays clear whenever the fields fit their bit widths |
| Codec.Unpack | KSDM_2040_BM.c:98-108 | unpacking never validates: every byte gives a mode in 0..7 and a traction state in 0..3 |
| Codec.IsSetup | KSDM_2040_BM.c:100 | the setup flag is set exactly for bytes >= 0x80 |
| Codec.UnpackPack | KSDM_2040_BM.c:84-108 | unpacking a packed preference set whose fields fit gives the set back, with the setup flag set |
| Codec.PackUnpack | KSDM_2040_BM.c:84-108 | repacking an unpacked byte keeps every bit except that it forces bit 7 on and bit 6 off; a byte that passes the boot check repacks to itself |
| Codec.BootByte | KSDM_2040_BM.c:209-218 | the byte boot settles on always passes the check; it is the stored byte when that passes the check, and the default 0xA3 otherwise |
| Codec.PackedRange | KSDM_2040_BM.c:84-91 | every byte packed from a real mode (SMART..CUSTOM) and traction state ON/OFF/TS lies in [0x81, 0xB5] |
| Codec.DefaultMeaning | KSDM_2040_BM.c:43 | the default byte passes the check, has its setup flag set and means COMFORT, ISG on, traction ON |
| Codec.PlausibleButNotCanonical | KSDM_2040_BM.c:210 | 0x86, 0x88, 0x99 and 0x9F pass the range check yet decode to mode 6, mode 0, traction 3, and mode 7 with traction 3 |
| Codec.PlausibleDoesNotMeanCanonical | KSDM_2040_BM.c:209-218 | some preference set whose fields fit is not canonical yet packs to a byte that passes the boot check (mode 0 with traction OFF packs to 0x88) |
| Presses.TractPressActiveLow | KSDM_2040_BM.c:137-151 | on revision 5 a traction press pulls the hold output low, then lets it go high; it blocks 3500 ms when long and 500 ms when short |
| Presses.PulseDuration | KSDM_2040_BM.c:158-163 | one selector pulse blocks 1000 ms and raises and lowers its pin once each |
| Presses.PulsesShape | KSDM_2040_BM.c:157-178 | n pulses are 4n effects, and the i-th is the (i mod 4)-th effect of one pulse; a count of zero or less emits nothing |
| Presses.PulsesCount | KSDM_2040_BM.c:157-178 | n pulses block 1000·n ms and give exactly n rising and n falling edges on the pin; a count of zero or less gives none |
| Presses.PulsesOwnPin | KSDM_2040_BM.c:157-178 | the pulses touch only their own pin and otherwise only sleep |
| Presses.RenderAllNoProgram | KSDM_2040_BM.c:137-178 | no press emitter writes storage |
| Drive.ModeUp | KSDM_2040_BM.c:330-334 | a clockwise step lands in SMART..CUSTOM and never goes down from a mode <= CUSTOM; it leaves the mode unchanged exactly at CUSTOM |
| Drive.ModeDown | KSDM_2040_BM.c:358-362 | a counter-clockwise step never falls below SMART, never goes up from a mode >= SMART, and stays <= CUSTOM from a mode <= CUSTOM; it leaves the mode unchanged exactly at SMART |
| Drive.ModeUpTimesSaturates | KSDM_2040_BM.c:330-334 | k clockwise steps from a real mode reach min(mode + k, CUSTOM): no wrap-around |
| Drive.ModeDownTimesSaturates | KSDM_2040_BM.c:358-362 | k counter-clockwise steps from a real mode reach max(mode - k, SMART): no wrap-around |
| Drive.ModeTimesBounded | KSDM_2040_BM.c:329-384 | any 3-bit mode, after one or more clockwise steps, is a real mode; counter-clockwise steps from a mode >= SMART stay between SMART and that mode |
| Drive.Elapsed | KSDM_2040_BM.c:300 | the hold length is now - start when the clock has not wrapped, and now - start + 2^32 when it has |
| Drive.AfterHold | KSDM_2040_BM.c:302-315 | a finished hold always leaves traction ON, OFF or TS |
| Drive.TractionRules | KSDM_2040_BM.c:302-315 | a hold of 9000 ms or more gives ON; from 2500 to 9000 ms it gives TS, or OFF from TS; under 2500 ms it gives OFF from ON and ON from any other state (TS and 3 included) |
| Drive.TractionScenarios | KSDM_2040_BM.c:302-315 | from ON/OFF/TS a 1000 ms hold gives OFF/ON/ON; 5000 ms from ON/TS gives TS/OFF; 9500 ms from any state gives ON |
| Drive.Correction | KSDM_2040_BM.c:336-352 | a mode change emits at most one traction press |
| Drive.CorrectionRules | KSDM_2040_BM.c:336-352 | after a mode change: no press iff traction is neither OFF nor TS; a long press iff the new mode is SPORT with TS; a short press iff traction is OFF, or TS outside SPORT |
| Drive.SaturatedInputStillPresses | KSDM_2040_BM.c:329-384 | a clockwise input at CUSTOM or a counter-clockwise input at SMART still emits a short press when traction is OFF or TS |
| Drive.RenderBootPresses | KSDM_2040_BM.c:224-271 | the boot replay's effects are the traction part, then the ISG part, then the selector part |
| Drive.BootPressesOrdered | KSDM_2040_BM.c:224-271 | the boot replay presses traction first, then ISG, then the selector; it short-presses iff SPORT with OFF, long-presses iff SPORT with TS, pulses ISG iff ISG is off, and has at most three presses |
| Drive.ModeReplayPins | KSDM_2040_BM.c:253-271 | the selector replay is 1 clockwise pulse for SPORT, 2 for CUSTOM, 2 counter-clockwise for SMART, and nothing for ECO, COMFORT or any other value |
| Drive.ModeReplayEdges | KSDM_2040_BM.c:253-271 | how many rising edges the selector replay puts on each output, per mode |
| Drive.BootPinCounts | KSDM_2040_BM.c:224-271 | at pin level the boot replay raises the ISG output once iff ISG is off; it raises the clockwise output once for SPORT and twice for CUSTOM, and the counter-clockwise output twice for SMART |
| Drive.BootEdges | KSDM_2040_BM.c:224-271 | outside the hold output, the boot replay's rising edges are the ISG edge plus the selector replay's edges |
| Drive.TractionReplayEdges | KSDM_2040_BM.c:224-240 | the traction replay raises no output other than the hold output |
| Drive.IsgReplayEdges | KSDM_2040_BM.c:248-252 | the ISG replay raises the ISG output once when ISG is off, and nothing else |
| Drive.BootScenarioSmartIsgOff | KSDM_2040_BM.c:224-271 | stored byte 0x81 is SMART, ISG off, traction ON, and its replay is one ISG pulse and two counter-clockwise pulses |
| Panel.PowerOn | KSDM_2040_BM.c:54-74 | at reset all latches are armed, no hold is timed, nothing is pending, and storage holds the flash byte |
| Panel.StepUnfold | KSDM_2040_BM.c:289-403 | one iteration is the re-arm and hold-end part, then both selector blocks, then the ISG, hold-start and storage blocks |
| Panel.ReleaseFrame | KSDM_2040_BM.c:296-318 | ending a hold changes neither mode, ISG, the selector and ISG latches nor storage, and it marks the state changed exactly when a hold ends |
| Panel.SelectorPhase | KSDM_2040_BM.c:329-384 | the two selector blocks together step the mode at most once, clockwise first, and emit the traction correction only when one fires |
| Panel.StartHoldFrame | KSDM_2040_BM.c:391-396 | starting a hold changes only the hold timing |
| Panel.PersistFrame | KSDM_2040_BM.c:398-403 | a changed state writes its packed preferences once and clears the flag; an unchanged state writes nothing |
| Panel.StepSelector | KSDM_2040_BM.c:289-384 | the mode steps once (clockwise if DMR reads high, else counter-clockwise) exactly when a selector input fires; the shared latch stays armed only if it was armed and neither input read high |
| Panel.StepIsg | KSDM_2040_BM.c:292-389 | the ISG preference toggles exactly in iterations where the ISG input reads high; the latch ends armed exactly when it was armed and the input read low, so once it has fired it stays disarmed |
| Panel.StepTraction | KSDM_2040_BM.c:296-396 | traction moves only when a timed hold ends, by the 32-bit hold length; with the latch armed, AH high leaves a hold timed from now; AH low keeps the hold timing; the latch is never disarmed |
| Panel.StepEffects | KSDM_2040_BM.c:329-403 | the only presses are the correction after a selector step; the loop writes the packed end-of-iteration preferences exactly when something changed, and ends with nothing pending |
| Panel.StepKeepsSynced | KSDM_2040_BM.c:289-403 | an iteration from a synced state (nothing pending, storage = packed preferences) leaves it synced |
| Panel.StepKeepsCanonical | KSDM_2040_BM.c:289-403 | from canonical synced preferences the loop keeps them canonical and only writes bytes that pass the boot check |
| Panel.IdleStep | KSDM_2040_BM.c:289-403 | with every input low, a synced state is left unchanged and nothing is emitted |
| Panel.BootFallback | KSDM_2040_BM.c:209-271 | an implausible byte makes boot write and use the default (COMFORT, ISG on, ON); a plausible one is used as stored, with no write; the 4000 ms wait precedes the replay |
| Panel.BootSynced | KSDM_2040_BM.c:209-218 | whatever flash held at power-on, boot leaves the loop synced with both input latches armed |
| Panel.OutOfRangeWrite | KSDM_2040_BM.c:385-403 | booting from 0x9F and toggling ISG writes 0xBF, which fails the boot check |
| Panel.HoldThenLeaveSport | KSDM_2040_BM.c:296-384 | two AH-high iterations 1200 ms apart turn traction ON into OFF; a later counter-clockwise input from SPORT goes to COMFORT with one short press, then writes |
| Panel.RepeatedWriteSameByte | KSDM_2040_BM.c:289-403 | at CUSTOM with traction ON, each iteration with both selector inputs high re-arms the latch, fires clockwise without moving the mode, and writes the byte storage already holds, again on the next such iteration: there is no skip-if-equal |
| Panel.StepsKeepSynced | KSDM_2040_BM.c:274-404 | over any finite schedule of iterations, a synced state stays synced: storage holds the packed preferences and nothing is pending |
| Panel.StepsKeepCanonical | KSDM_2040_BM.c:274-404 | over any finite schedule, canonical synced preferences stay canonical and storage always holds a byte that passes the boot check |
| Firmware.Controller.constructor | KSDM_2040_BM.c:54-74 | the fields start as the globals' static initial values, with an empty trace |
| Firmware.Controller.FlashWrite | KSDM_2040_BM.c:117-128 | storage holds the byte afterwards, the write reports success, and one storage write is traced |
| Firmware.Controller.UnpackByte | KSDM_2040_BM.c:98-108 | the preference fields and setup flag become `Unpack` and `IsSetup` of the byte |
| Firmware.Controller.TractPress | KSDM_2040_BM.c:137-151 | appends exactly the short or long traction press |
| Firmware.Controller.PulsePin | KSDM_2040_BM.c:157-178 | the loop appends exactly `num` pulses on the pin (none for `num` <= 0) |
| Firmware.Controller.ClockWise | KSDM_2040_BM.c:157-164 | appends `num` clockwise pulses |
| Firmware.Controller.CounterClockWise | KSDM_2040_BM.c:171-178 | appends `num` counter-clockwise pulses |
| Firmware.Controller.ReassertTraction | KSDM_2040_BM.c:336-352 | appends exactly the correction for the new mode and the traction state |
| Firmware.Controller.LoadPreferences | KSDM_2040_BM.c:209-218 | storage becomes the boot byte, the preferences its unpacking, and the default is written only when the stored byte is implausible |
| Firmware.Controller.ReplayTraction | KSDM_2040_BM.c:224-240 | appends the traction replay |
| Firmware.Controller.ReplayIsg | KSDM_2040_BM.c:248-252 | appends the ISG replay |
| Firmware.Controller.ReplayMode | KSDM_2040_BM.c:253-271 | appends the selector replay |
| Firmware.Controller.Replay | KSDM_2040_BM.c:224-271 | appends the whole boot replay for the loaded preferences |
| Firmware.Controller.Boot | KSDM_2040_BM.c:209-271 | the new fields and the appended trace are exactly what `Panel.Boot` gives |
| Firmware.Controller.Rearm | KSDM_2040_BM.c:289-294 | the latches become what `Panel.Rearm` gives |
| Firmware.Controller.EndHold | KSDM_2040_BM.c:296-318 | the fields become what `Panel.Release` gives, with the difference taken modulo 2^32 |
| Firmware.Controller.Sense | KSDM_2040_BM.c:289-318 | the fields become what `Panel.Sense` gives |
| Firmware.Controller.SelectorUp | KSDM_2040_BM.c:329-356 | the fields and trace become what `Panel.TurnUp` gives |
| Firmware.Controller.SelectorDown | KSDM_2040_BM.c:357-384 | the fields and trace become what `Panel.TurnDown` gives |
| Firmware.Controller.Select | KSDM_2040_BM.c:329-384 | the fields and trace become what `Panel.Select` gives |
| Firmware.Controller.ToggleIsg | KSDM_2040_BM.c:385-389 | the fields become what `Panel.ToggleIsg` gives |
| Firmware.Controller.StartHold | KSDM_2040_BM.c:391-396 | the fields become what `Panel.StartHold` gives |
| Firmware.Controller.Persist | KSDM_2040_BM.c:398-403 | the fields and trace become what `Panel.Persist` gives |
| Firmware.Controller.Settle | KSDM_2040_BM.c:385-403 | the fields and trace become what `Panel.Settle` gives, and nothing is left pending |
| Firmware.Controller.Tick | KSDM_2040_BM.c:289-403 | one loop pass leaves the fields as `Panel.Step` of the old fields, appends exactly its effects, and leaves nothing pending |
| Firmware.Controller.Run | KSDM_2040_BM.c:274-404 | the loop over a finite schedule leaves the fields and the trace exactly as `Panel.Steps` (each iteration `Panel.Step` of the previous state, effects in order) describes; from a synced state it stays synced, and from synced canonical preferences storage ends holding a byte that passes the boot check |

## Left out

- GPIO initialisation (lines 183-198) is left out. As written it sets all four output pins (DMR_OUT, DML_OUT, ISG_OUT, AH_OUT) to input direction and never switches them to output, so the `Put` effects the model traces write the output level of pins the code leaves undriven. The model records the writes the code makes and does not model pin direction.
- The revision < 6 power-up pulse on the hold output (lines 200-207) is left out. It happens before storage is read and does not depend on any state.
- The serial-port identification command (lines 276-288) is left out. It touches no state the loop uses. As written, the loop at line 280 that should discard extra bytes reads none, so with a third byte pending it spins forever and the control loop stops; the model does not capture this.
- `printf` and `stdio_init_all` are left out.
- The internals of the flash erase/program sequence and the interrupt masking around it are left out (lines 117-128). Storage is one byte, and `Firmware.Controller.FlashWrite` always succeeds. The loop ignores its result anyway.
- The clock is an input: `Firmware.Controller.Tick` takes one reading `now`. The source reads the clock twice in one iteration (lines 299 and 393). The model uses one reading for both, so time spent in presses between the two reads is not modelled.
- Delays are `Sleep` effects. Real time, and inputs missed while a press blocks the loop, are not modelled.
- Each input is sampled once per iteration (`Panel.Inputs`). The source reads each pin twice in one pass: DMR at lines 289 and 329, DML at 289 and 357, ISG at 292 and 385, AH at 296 and 391. A correction press of up to 3500 ms can fall between the two ISG reads and between the two AH reads, so a level that changes between the source's two reads is not modelled.
- The `KSDM_3` variant (the `#else` branches with the auto-hold flag) is left out: the modelled build does not compile it.
- `b_tract_timer` (line 66) is left out: it is never read or written.
- The infinite loop is modelled by `Firmware.Controller.Run` over a finite schedule.
- Panel.StepKeepsSynced: the synced invariant (storage holds the packed preferences) assumes every storage write succeeds. In the source `flashWrite` returns its read-back comparison (line 127), both callers ignore it (lines 212 and 401) and `g_changed` is cleared anyway (line 402), so a failed write would leave storage stale. The same assumption underlies `Panel.StepsKeepSynced`, `Panel.BootSynced` and `Firmware.Controller.Run`.
