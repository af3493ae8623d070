/** The persisted preference byte of the drive-mode panel (sport-plus variant):
    bit 7 is the setup marker, bits 2:0 the drive mode, bits 4:3 the traction
    state and bit 5 the idle-stop-go (ISG) flag. */
module Codec {

  /** One byte of storage, an unsigned 8-bit value (`kbyte`). */
  type Byte = bv8

  // Drive modes, in the order the selector walks them.
  const Smart: Byte := 0x01
  const Eco: Byte := 0x02
  const Comfort: Byte := 0x03
  const Sport: Byte := 0x04
  const Custom: Byte := 0x05

  // Traction states.
  const TractOn: Byte := 0   // traction on (default)
  const TractOff: Byte := 1  // traction off, stability on
  const TractTs: Byte := 2   // traction and stability off

  const SetupBit: Byte := 0x80
  const IsgBit: Byte := 0x20
  const TractMask: Byte := 0x18
  const ModeMask: Byte := 0x07

  /** Byte used when the stored one is implausible: comfort, ISG on, traction on. */
  const Default: Byte := 0xA3

  /** The logical preferences held in the globals `currentMode`, `isIsg`, `tract`. */
  datatype Prefs = Prefs(mode: Byte, isg: bool, tract: Byte)

  /** Preferences this system itself produces: a real mode and one of the three traction states. */
  predicate Canonical(p: Prefs)
  {
    Smart <= p.mode <= Custom && p.tract <= TractTs
  }

  /** Preferences whose fields fit their bit fields. */
  predicate Fits(p: Prefs)
  {
    p.mode <= 7 && p.tract <= 3
  }

  function BoolBit(b: bool): (r: Byte)
    ensures r <= 1 && (r == 1 <==> b)
  {
    if b then 1 else 0
  }

  /** `pack_byte`: the setup marker ORed with the three fields at their positions. */
  function Pack(p: Prefs): (b: Byte)
    ensures b & SetupBit == SetupBit
    ensures Fits(p) ==> b & 0x40 == 0
  {
    SetupBit | p.mode | (BoolBit(p.isg) << 5) | (p.tract << 3)
  }

  /** `unpack_byte` without the setup flag: masks and shifts, no validation. */
  function Unpack(b: Byte): (p: Prefs)
    ensures Fits(p)
  {
    Prefs(b & ModeMask, (b & IsgBit) >> 5 != 0, (b & TractMask) >> 3)
  }

  /** The `isSetup` flag `unpack_byte` reads from bit 7. */
  function IsSetup(b: Byte): (r: bool)
    ensures r <==> b >= SetupBit
  {
    (b & SetupBit) >> 7 != 0
  }

  /** The boot range check: a stored byte is used only inside [0x81, 0xB5]. */
  predicate Plausible(b: Byte)
  {
    !(b > 0xB5 || b < 0x81)
  }

  /** The byte boot settles on: the stored one if plausible, else the default. */
  function BootByte(stored: Byte): (b: Byte)
    ensures Plausible(b)
    ensures Plausible(stored) ==> b == stored
    ensures !Plausible(stored) ==> b == Default
  {
    if Plausible(stored) then stored else Default
  }

  /** Fields occupy disjoint bits, so unpacking a packed set gives it back. */
  lemma UnpackPack(p: Prefs)
    requires Fits(p)
    ensures Unpack(Pack(p)) == p
    ensures IsSetup(Pack(p))
  {
  }

  /** Packing an unpacked byte keeps every bit but forces bit 7 on and bit 6 off. */
  lemma PackUnpack(b: Byte)
    ensures Pack(Unpack(b)) == (b | SetupBit) & 0xBF
    ensures Plausible(b) ==> Pack(Unpack(b)) == b
  {
  }

  /** Every byte packed from canonical preferences passes the boot check. */
  lemma PackedRange(p: Prefs)
    requires Canonical(p)
    ensures Plausible(Pack(p))
  {
  }

  /** The default byte is plausible and means comfort, ISG on, traction on. */
  lemma DefaultMeaning()
    ensures Plausible(Default)
    ensures Unpack(Default) == Prefs(Comfort, true, TractOn)
    ensures IsSetup(Default)
  {
  }

  /** The range check lets through bytes that decode to non-canonical preferences:
      mode 0, 6 or 7 and traction state 3. */
  lemma PlausibleButNotCanonical()
    ensures Plausible(0x86) && Unpack(0x86).mode == 6
    ensures Plausible(0x88) && Unpack(0x88).mode == 0
    ensures Plausible(0x99) && Unpack(0x99).tract == 3
    ensures Plausible(0x9F) && Unpack(0x9F) == Prefs(7, false, 3)
  {
  }

  /** Passing the boot check does not make a packed preference set canonical:
      mode 0 with traction OFF packs to 0x88, which the check accepts. */
  lemma PlausibleDoesNotMeanCanonical()
    ensures exists p :: Fits(p) && Plausible(Pack(p)) && !Canonical(p)
  {
    var p := Prefs(0, false, TractOff);
    assert Pack(p) == 0x88;
    assert Fits(p) && Plausible(Pack(p)) && !Canonical(p);
  }
}
