/**
 * The acceptance-filter factories of `ACAN_ESP32_Filter`: each turns a CAN
 * identifier and a don't-care mask (a 1 bit is ignored when matching) into
 * the eight acceptance code (ACR) and acceptance mask (AMR) registers of an
 * SJA1000-compatible controller, laid out as in figures 9 to 12 (pages 45
 * to 48) of the SJA1000 datasheet.
 */
module AcceptanceFilters {
  import opened Bits

  /** Which identifier formats the filter lets through. */
  datatype Format = Standard | Extended | StandardAndExtended

  /** Which frame types the filter lets through. */
  datatype FrameType = Data | Remote | DataAndRemote

  datatype Filter = Filter(
    acr0: Byte, acr1: Byte, acr2: Byte, acr3: Byte,
    amr0: Byte, amr1: Byte, amr2: Byte, amr3: Byte,
    amfSingle: bool,   // single filter mode when true, dual filter mode when false
    format: Format)

  const STD_ID_LIMIT: nat := 0x800          // 2^11
  const EXT_ID_LIMIT: nat := 0x2000_0000    // 2^29

  // ---------------------------------------------------------------------------
  // Reading the registers back (the inverse of the factories)
  // ---------------------------------------------------------------------------

  /** An 11-bit identifier held in a register pair as figure 9 lays it out: bits 10..3, then bits 2..0 on top. */
  function StandardIdOf(hi: Byte, lo: Byte): nat
  {
    hi * 8 + lo / 32
  }

  /** A 29-bit identifier held in four registers as figure 10 lays it out: bits 28..21, 20..13, 12..5, then 4..0 on top. */
  function ExtendedIdOf(r0: Byte, r1: Byte, r2: Byte, r3: Byte): nat
  {
    r0 * 0x20_0000 + r1 * 0x2000 + r2 * 32 + r3 / 8
  }

  /** The 16 most significant bits of a 29-bit identifier held in a register pair (dual filter mode, figure 12). */
  function ExtendedHighBitsOf(hi: Byte, lo: Byte): nat
  {
    hi * 0x100 + lo
  }

  /** Bit 0x10: the remote-frame bit of a standard-format register. */
  predicate StdTypeBit(r: Byte)
  {
    (r / 0x10) % 2 == 1
  }

  /** Bit 0x04: the remote-frame bit of the last extended-format register. */
  predicate ExtTypeBit(r: Byte)
  {
    (r / 0x04) % 2 == 1
  }

  /** Every mask register is all ones: no bit of any frame is compared. */
  predicate AllDontCare(f: Filter)
  {
    f.amr0 == 0xFF && f.amr1 == 0xFF && f.amr2 == 0xFF && f.amr3 == 0xFF
  }

  // ---------------------------------------------------------------------------
  // Factories
  // ---------------------------------------------------------------------------

  /** The private default constructor: acceptance registers 0, mask registers 0xFF, both formats, dual mode. */
  function Default(): (f: Filter)
    ensures f.acr0 == 0 && f.acr1 == 0 && f.acr2 == 0 && f.acr3 == 0
    ensures AllDontCare(f) && f.format == StandardAndExtended && !f.amfSingle
  {
    Filter(0, 0, 0, 0, 0xFF, 0xFF, 0xFF, 0xFF, false, StandardAndExtended)
  }

  function AcceptAll(): (f: Filter)
    ensures f == Default()
    ensures AllDontCare(f) && f.format == StandardAndExtended && !f.amfSingle
  {
    Default()
  }

  function AcceptStandardFrames(): (f: Filter)
    ensures f == AcceptAll().(format := Standard)
    ensures AllDontCare(f)
  {
    Default().(format := Standard)
  }

  function AcceptExtendedFrames(): (f: Filter)
    ensures f == AcceptAll().(format := Extended)
    ensures AllDontCare(f)
  {
    Default().(format := Extended)
  }

  /** `uint8_t(x << 5) | 0x0F`: the low three bits of x on top, the low nibble all ones. */
  function StdLowRegister(x: UInt16): (r: Byte)
    ensures r == (x % 8) * 32 + 0x0F
  {
    ShiftedByte5(x);
    assert Pow2(5) == 32;
    OrIntoClearLowBits(x % 8, 5, 0x0F);
    BitOr(Trunc8(x * 32), 0x0F)
  }

  /** `r | 0x10` on a standard-format register whose bit 0x10 is clear. */
  function SetStdTypeBit(r: Byte): (s: Byte)
    requires !StdTypeBit(r)
    ensures s == r + 0x10
  {
    assert Pow2(4) == 0x10;
    SetClearBit(r, 4);
    BitOr(r, 0x10)
  }

  /** `r | 0x04` on an extended-format register whose low three bits are clear. */
  function SetExtTypeBit(r: Byte): (s: Byte)
    requires r % 8 == 0
    ensures s == r + 0x04
  {
    assert Pow2(2) == 0x04;
    SetClearBit(r, 2);
    BitOr(r, 0x04)
  }

  /** ACR1 of the standard-identifier constructor: the identifier's low three bits on top, then the remote-frame bit when asked for. */
  function StdAcceptanceLow(id: UInt16, typeBit: bool): (r: Byte)
    ensures r / 32 == id % 8 && r % 0x10 == 0
    ensures StdTypeBit(r) <==> typeBit
  {
    ShiftedByte5(id);
    StdRegisterFields(id % 8, 0);
    StdRegisterFields(id % 8, 0x10);
    var r := Trunc8(id * 32);
    if typeBit then SetStdTypeBit(r) else r
  }

  /** AMR1 of the standard-identifier constructor: the mask's low three bits on top, a don't-care low nibble, then the type bit for a data-and-remote filter. */
  function StdMaskLow(mask: UInt16, typeBit: bool): (r: Byte)
    ensures r / 32 == mask % 8 && r % 0x10 == 0x0F
    ensures StdTypeBit(r) <==> typeBit
  {
    StdRegisterFields(mask % 8, 0x0F);
    StdRegisterFields(mask % 8, 0x1F);
    var r := StdLowRegister(mask);
    if typeBit then SetStdTypeBit(r) else r
  }

  /** `singleStandardFilter`: one filter over an 11-bit identifier. */
  function SingleStandardFilter(t: FrameType, id: UInt16, mask: UInt16): (f: Filter)
    ensures f.amfSingle && f.format == Standard
    ensures StandardIdOf(f.acr0, f.acr1) == id % STD_ID_LIMIT
    ensures StandardIdOf(f.amr0, f.amr1) == mask % STD_ID_LIMIT
    ensures f.acr1 % 0x10 == 0 && f.amr1 % 0x10 == 0x0F
    ensures StdTypeBit(f.acr1) <==> t == Remote
    ensures StdTypeBit(f.amr1) <==> t == DataAndRemote
    ensures f.acr2 == AcceptAll().acr2 && f.acr3 == AcceptAll().acr3
    ensures f.amr2 == AcceptAll().amr2 && f.amr3 == AcceptAll().amr3
  {
    var acr1 := StdAcceptanceLow(id, t == Remote);
    var amr1 := StdMaskLow(mask, t == DataAndRemote);
    StandardIdBytes(id, acr1);
    StandardIdBytes(mask, amr1);
    Default().(
      amfSingle := true,
      format := Standard,
      acr0 := Trunc8(id / 8),
      acr1 := acr1,
      amr0 := Trunc8(mask / 8),
      amr1 := amr1)
  }

  /** `singleExtendedFilter`: one filter over a 29-bit identifier. */
  function SingleExtendedFilter(t: FrameType, id: UInt32, mask: UInt32): (f: Filter)
    ensures f.amfSingle && f.format == Extended
    ensures ExtendedIdOf(f.acr0, f.acr1, f.acr2, f.acr3) == id % EXT_ID_LIMIT
    ensures ExtendedIdOf(f.amr0, f.amr1, f.amr2, f.amr3) == mask % EXT_ID_LIMIT
    ensures f.acr3 % 4 == 0 && f.amr3 % 4 == 0
    ensures ExtTypeBit(f.acr3) <==> t == Remote
    ensures ExtTypeBit(f.amr3) <==> t == DataAndRemote
  {
    var acr3 := ExtLowRegister(id);
    var acr3 := if t == Remote then SetExtTypeBit(acr3) else acr3;
    var amr3 := ExtLowRegister(mask);
    var amr3 := if t == DataAndRemote then SetExtTypeBit(amr3) else amr3;
    ExtendedIdBytes(id, acr3);
    ExtendedIdBytes(mask, amr3);
    ExtLowRegisterBits(id, t == Remote);
    ExtLowRegisterBits(mask, t == DataAndRemote);
    Default().(
      amfSingle := true,
      format := Extended,
      acr0 := Trunc8(id / 0x20_0000),
      acr1 := Trunc8(id / 0x2000),
      acr2 := Trunc8(id / 32),
      acr3 := acr3,
      amr0 := Trunc8(mask / 0x20_0000),
      amr1 := Trunc8(mask / 0x2000),
      amr2 := Trunc8(mask / 32),
      amr3 := amr3)
  }

  /** `uint8_t(x << 3)` on a `uint32_t`: the low five bits of x on top. */
  function ExtLowRegister(x: UInt32): (r: Byte)
    ensures r == (x % 32) * 8
  {
    assert Pow2(3) == 8;
    assert Shl32(x, 3) == (x * 8) % WORD32;
    Trunc8AfterWrap(x * 8);
    ShiftedByte3(x);
    Trunc8(Shl32(x, 3))
  }

  /** `dualStandardFilter`: two filters over 11-bit identifiers, filter 0 in registers 0-1 and filter 1 in registers 2-3. */
  function DualStandardFilter(t0: FrameType, id0: UInt16, mask0: UInt16,
                              t1: FrameType, id1: UInt16, mask1: UInt16): (f: Filter)
    ensures !f.amfSingle && f.format == Standard
    ensures var g := SingleStandardFilter(t0, id0, mask0);
      f.acr0 == g.acr0 && f.acr1 == g.acr1 && f.amr0 == g.amr0 && f.amr1 == g.amr1
    ensures var g := SingleStandardFilter(t1, id1, mask1);
      f.acr2 == g.acr0 && f.acr3 == g.acr1 && f.amr2 == g.amr0 && f.amr3 == g.amr1
  {
    Default().(
      amfSingle := false,
      format := Standard,
      acr0 := Trunc8(id0 / 8),
      acr1 := StdAcceptanceLow(id0, t0 == Remote),
      amr0 := Trunc8(mask0 / 8),
      amr1 := StdMaskLow(mask0, t0 == DataAndRemote),
      acr2 := Trunc8(id1 / 8),
      acr3 := StdAcceptanceLow(id1, t1 == Remote),
      amr2 := Trunc8(mask1 / 8),
      amr3 := StdMaskLow(mask1, t1 == DataAndRemote))
  }

  /**
   * `dualExtendedFilter` as written: filter 1's second register pair is computed
   * with `uint8_t(x << 13)`, which keeps none of x's bits.
   */
  function DualExtendedFilter(id0: UInt32, mask0: UInt32, id1: UInt32, mask1: UInt32): (f: Filter)
    ensures !f.amfSingle && f.format == Extended
    ensures ExtendedHighBitsOf(f.acr0, f.acr1) == (id0 / 0x2000) % 0x1_0000
    ensures ExtendedHighBitsOf(f.amr0, f.amr1) == (mask0 / 0x2000) % 0x1_0000
    ensures f.acr2 == (id1 / 0x20_0000) % 0x100 && f.amr2 == (mask1 / 0x20_0000) % 0x100
    ensures f.acr3 == 0 && f.amr3 == 0
  {
    ShiftedByte13IsZero(id1);
    ShiftedByte13IsZero(mask1);
    ExtendedHighBytes(id0);
    ExtendedHighBytes(mask0);
    Default().(
      amfSingle := false,
      format := Extended,
      acr0 := Trunc8(id0 / 0x20_0000),
      acr1 := Trunc8(id0 / 0x2000),
      amr0 := Trunc8(mask0 / 0x20_0000),
      amr1 := Trunc8(mask0 / 0x2000),
      acr2 := Trunc8(id1 / 0x20_0000),
      acr3 := Trunc8(Shl32(id1, 13)),
      amr2 := Trunc8(mask1 / 0x20_0000),
      amr3 := Trunc8(Shl32(mask1, 13)))
  }

  /**
   * The dual extended filter as the SJA1000 lays it out: each filter holds
   * bits 28..13 of its identifier and mask in its register pair, filter 1
   * exactly as filter 0.
   */
  function DualExtendedFilterCorrected(id0: UInt32, mask0: UInt32, id1: UInt32, mask1: UInt32): (f: Filter)
    ensures !f.amfSingle && f.format == Extended
    ensures ExtendedHighBitsOf(f.acr0, f.acr1) == (id0 / 0x2000) % 0x1_0000
    ensures ExtendedHighBitsOf(f.amr0, f.amr1) == (mask0 / 0x2000) % 0x1_0000
    ensures ExtendedHighBitsOf(f.acr2, f.acr3) == (id1 / 0x2000) % 0x1_0000
    ensures ExtendedHighBitsOf(f.amr2, f.amr3) == (mask1 / 0x2000) % 0x1_0000
  {
    ExtendedHighBytes(id0);
    ExtendedHighBytes(mask0);
    ExtendedHighBytes(id1);
    ExtendedHighBytes(mask1);
    Default().(
      amfSingle := false,
      format := Extended,
      acr0 := Trunc8(id0 / 0x20_0000),
      acr1 := Trunc8(id0 / 0x2000),
      amr0 := Trunc8(mask0 / 0x20_0000),
      amr1 := Trunc8(mask0 / 0x2000),
      acr2 := Trunc8(id1 / 0x20_0000),
      acr3 := Trunc8(id1 / 0x2000),
      amr2 := Trunc8(mask1 / 0x20_0000),
      amr3 := Trunc8(mask1 / 0x2000))
  }

  // ---------------------------------------------------------------------------
  // Lemmas
  // ---------------------------------------------------------------------------

  /** The last extended register: five identifier bits on top, then the type bit, then two clear bits. */
  lemma ExtLowRegisterBits(x: nat, typeBit: bool)
    ensures var r := (x % 32) * 8 + (if typeBit then 4 else 0);
      r % 4 == 0 && (ExtTypeBit(r) <==> typeBit)
  {
  }

  /** A standard-format register k·32 + lo: k on top, bit 0x10 and the low nibble from lo. */
  lemma StdRegisterFields(k: nat, lo: nat)
    requires k < 8 && lo < 32
    ensures (k * 32 + lo) / 32 == k
    ensures (k * 32 + lo) % 0x10 == lo % 0x10
    ensures ((k * 32 + lo) / 0x10) % 2 == lo / 0x10
  {
    DivModUnique(k * 32 + lo, 32, k, lo);
    DivModUnique(k * 32 + lo, 0x10, k * 2 + lo / 0x10, lo % 0x10);
    DivModUnique(k * 2 + lo / 0x10, 2, k, lo / 0x10);
  }

  /** Registers 0-1 of a standard filter read back as the identifier's low eleven bits. */
  lemma StandardIdBytes(x: nat, lo: Byte)
    requires lo / 32 == x % 8
    ensures StandardIdOf(Trunc8(x / 8), lo) == x % STD_ID_LIMIT
  {
    ModSplit(x, 8, 0x100);
  }

  /** Registers 0-3 of an extended filter read back as the identifier's low 29 bits. */
  lemma ExtendedIdBytes(x: nat, lo: Byte)
    requires lo / 8 == x % 32
    ensures ExtendedIdOf(Trunc8(x / 0x20_0000), Trunc8(x / 0x2000), Trunc8(x / 32), lo) == x % EXT_ID_LIMIT
  {
    ModSplit(x, 0x20_0000, 0x100);
    ModSplit(x, 0x2000, 0x100);
    ModSplit(x, 32, 0x100);
  }

  /** A register pair filled from `x >> 21` and `x >> 13` holds bits 28..13 of x. */
  lemma ExtendedHighBytes(x: nat)
    ensures ExtendedHighBitsOf(Trunc8(x / 0x20_0000), Trunc8(x / 0x2000)) == (x / 0x2000) % 0x1_0000
  {
    assert x / 0x20_0000 == (x / 0x2000) / 0x100;
    ModSplit(x / 0x2000, 0x100, 0x100);
  }

  lemma ShiftedByte13IsZero(x: UInt32)
    ensures Trunc8(Shl32(x, 13)) == 0
  {
    var y := x * 0x2000;
    assert Pow2(13) == 0x2000;
    assert Shl32(x, 13) == y % WORD32;
    Trunc8AfterWrap(y);
    DivModUnique(y, BYTE, x * 0x20, 0);
  }

  /**
   * In the dual extended filter as written, filter 1 compares only bits
   * 28..21 of its identifier and mask: identifiers and masks that agree on
   * those bits give the same registers.
   */
  lemma DualExtendedFilterIgnoresId1LowBits(id0: UInt32, mask0: UInt32, id1: UInt32, mask1: UInt32,
                                            id1': UInt32, mask1': UInt32)
    requires id1 / 0x20_0000 == id1' / 0x20_0000 && mask1 / 0x20_0000 == mask1' / 0x20_0000
    ensures DualExtendedFilter(id0, mask0, id1, mask1) == DualExtendedFilter(id0, mask0, id1', mask1')
  {
    ShiftedByte13IsZero(id1);
    ShiftedByte13IsZero(id1');
    ShiftedByte13IsZero(mask1);
    ShiftedByte13IsZero(mask1');
  }

  /**
   * The counterexample: identifiers 0 and 0x2000 differ in bit 13, which
   * dual filter mode compares. The code as written cannot tell them apart;
   * the corrected layout can.
   */
  lemma DualExtendedFilterCounterexample()
    ensures DualExtendedFilter(0, 0, 0x2000, 0) == DualExtendedFilter(0, 0, 0, 0)
    ensures DualExtendedFilterCorrected(0, 0, 0x2000, 0).acr3 == 1
    ensures DualExtendedFilterCorrected(0, 0, 0, 0).acr3 == 0
  {
    DualExtendedFilterIgnoresId1LowBits(0, 0, 0x2000, 0, 0, 0);
  }

  /** The frame type only touches the one type bit: remote sets it in ACR1, data-and-remote in AMR1. */
  lemma SingleStandardTypeBitOnly(id: UInt16, mask: UInt16)
    ensures var d := SingleStandardFilter(Data, id, mask);
      && SingleStandardFilter(Remote, id, mask) == d.(acr1 := d.acr1 + 0x10)
      && SingleStandardFilter(DataAndRemote, id, mask) == d.(amr1 := d.amr1 + 0x10)
  {
  }

  /** Likewise for the extended filter, with bit 0x04 of ACR3 and AMR3. */
  lemma SingleExtendedTypeBitOnly(id: UInt32, mask: UInt32)
    ensures var d := SingleExtendedFilter(Data, id, mask);
      && SingleExtendedFilter(Remote, id, mask) == d.(acr3 := d.acr3 + 0x04)
      && SingleExtendedFilter(DataAndRemote, id, mask) == d.(amr3 := d.amr3 + 0x04)
  {
  }
}
