/**
 * The MIT-style motor command codec: clamping, linear quantisation of the
 * five setpoints to 16- and 12-bit unsigned integers, and the fixed bit
 * layout of those integers in an eight-byte payload.
 *
 * The C++ works on `float`; the model uses exact reals, and the truncating
 * `static_cast<unsigned int>` of a non-negative value is `Floor`.
 */
module MotorCodec {
  import opened Bits

  // Clamp and quantisation ranges of the five setpoints.
  const P_MIN: real := -40.0
  const P_MAX: real := 40.0
  const V_MIN: real := -50.0
  const V_MAX: real := 50.0
  const T_MIN: real := -25.0
  const T_MAX: real := 25.0
  const KP_MIN: real := 0.0
  const KP_MAX: real := 500.0
  const KD_MIN: real := 0.0
  const KD_MAX: real := 5.0

  /** The largest code of a quantiser of the given width (only 12 and 16 are supported). */
  function MaxCode(bits: nat): real
  {
    if bits == 12 then 4095.0 else if bits == 16 then 65535.0 else 0.0
  }

  predicate SupportedWidth(bits: nat)
  {
    bits == 12 || bits == 16
  }

  /** Arduino's `constrain(x, lo, hi)`. */
  function Constrain(x: real, lo: real, hi: real): (r: real)
    ensures lo <= hi ==> lo <= r <= hi
    ensures lo <= x <= hi ==> r == x
    ensures x < lo ==> r == lo
    ensures lo <= hi && hi < x ==> r == hi
  {
    if x < lo then lo else if x > hi then hi else x
  }

  /**
   * `floatToUInt`: maps x in [xMin, xMax] linearly onto the codes of a
   * 12- or 16-bit quantiser, truncating; any other width gives 0.
   */
  function FloatToUInt(x: real, xMin: real, xMax: real, bits: nat): (r: int)
    requires xMin < xMax && xMin <= x <= xMax
    ensures SupportedWidth(bits) ==> 0 <= r <= Pow2(bits) - 1
    ensures SupportedWidth(bits) ==> r as real <= (x - xMin) * MaxCode(bits) / (xMax - xMin) < r as real + 1.0
    ensures !SupportedWidth(bits) ==> r == 0
  {
    var span := xMax - xMin;
    if bits == 12 then
      QuantisedInRange(x - xMin, span, 4095.0);
      assert Pow2(12) == 0x1000;
      ((x - xMin) * 4095.0 / span).Floor
    else if bits == 16 then
      QuantisedInRange(x - xMin, span, 65535.0);
      assert Pow2(16) == 0x1_0000;
      ((x - xMin) * 65535.0 / span).Floor
    else
      0
  }

  /** `uintToFloat`: the value at the bottom of the code's quantisation step; any other width gives 0. */
  function UIntToFloat(code: int, xMin: real, xMax: real, bits: nat): (r: real)
    ensures SupportedWidth(bits) && xMin <= xMax && 0.0 <= code as real <= MaxCode(bits) ==> xMin <= r <= xMax
    ensures !SupportedWidth(bits) ==> r == 0.0
  {
    var span := xMax - xMin;
    if bits == 12 then
      DequantisedInRange(code as real, span, 4095.0);
      (code as real) * span / 4095.0 + xMin
    else if bits == 16 then
      DequantisedInRange(code as real, span, 65535.0);
      (code as real) * span / 65535.0 + xMin
    else
      0.0
  }

  // ---------------------------------------------------------------------------
  // The payload layout
  // ---------------------------------------------------------------------------

  /** The five quantised setpoints, in payload order. */
  datatype Command = Command(p: nat, v: nat, kp: nat, kd: nat, t: nat)

  /** Position fits 16 bits; velocity, both gains and torque fit 12 bits. */
  predicate Fits(c: Command)
  {
    c.p < 0x1_0000 && c.v < 0x1000 && c.kp < 0x1000 && c.kd < 0x1000 && c.t < 0x1000
  }

  /** The layout step of `packCommand`: the integers laid out big-endian, 16+12+12+12+12 bits. */
  function PackInts(c: Command): (data: seq<Byte>)
    ensures |data| == 8
  {
    [ Trunc8(c.p / 0x100),                              // position, high byte
      c.p % 0x100,                                      // position, low byte
      Trunc8(c.v / 0x10),                               // velocity, high eight bits
      Trunc8(BitOr((c.v % 0x10) * 0x10, c.kp / 0x100)), // velocity low nibble, then kp high nibble
      c.kp % 0x100,                                     // kp, low byte
      Trunc8(c.kd / 0x10),                              // kd, high eight bits
      Trunc8(BitOr((c.kd % 0x10) * 0x10, c.t / 0x100)), // kd low nibble, then torque high nibble
      c.t % 0x100 ]                                     // torque, low byte
  }

  /** The reading step of `unpackCommand`: the same layout read back. */
  function UnpackInts(data: seq<Byte>): (c: Command)
    requires |data| == 8
    ensures Fits(c)
  {
    OrIntoClearLowBits(data[0], 8, data[1]);
    OrIntoClearLowBits(data[2], 4, data[3] / 0x10);
    OrIntoClearLowBits(data[3] % 0x10, 8, data[4]);
    OrIntoClearLowBits(data[5], 4, data[6] / 0x10);
    OrIntoClearLowBits(data[6] % 0x10, 8, data[7]);
    assert Pow2(4) == 0x10 && Pow2(8) == 0x100;
    Command(
      BitOr(data[0] as int * 0x100, data[1]),                 // position: bytes 0 and 1
      BitOr(data[2] as int * 0x10, data[3] / 0x10),           // velocity: byte 2, then high nibble of byte 3
      BitOr((data[3] % 0x10) as int * 0x100, data[4]),        // kp: low nibble of byte 3, then byte 4
      BitOr(data[5] as int * 0x10, data[6] / 0x10),           // kd: byte 5, then high nibble of byte 6
      BitOr((data[6] % 0x10) as int * 0x100, data[7]))        // torque: low nibble of byte 6, then byte 7
  }

  /** `packCommand`: clamp each setpoint to its range, quantise it, lay the codes out. */
  function PackCommand(p: real, v: real, kp: real, kd: real, t: real): (data: seq<Byte>)
    ensures |data| == 8
  {
    PackInts(Quantise(p, v, kp, kd, t))
  }

  /** The first step of `packCommand`: the clamped, quantised setpoints. */
  function Quantise(p: real, v: real, kp: real, kd: real, t: real): (c: Command)
    ensures Fits(c)
  {
    assert Pow2(12) == 0x1000 && Pow2(16) == 0x1_0000;
    Command(
      FloatToUInt(Constrain(p, P_MIN, P_MAX), P_MIN, P_MAX, 16),
      FloatToUInt(Constrain(v, V_MIN, V_MAX), V_MIN, V_MAX, 12),
      FloatToUInt(Constrain(kp, KP_MIN, KP_MAX), KP_MIN, KP_MAX, 12),
      FloatToUInt(Constrain(kd, KD_MIN, KD_MAX), KD_MIN, KD_MAX, 12),
      FloatToUInt(Constrain(t, T_MIN, T_MAX), T_MIN, T_MAX, 12))
  }

  /** Position, velocity and torque as a status payload reports them. */
  datatype Feedback = Feedback(position: real, velocity: real, torque: real)

  /**
   * `unpackCommand` on an eight-byte payload: the integers
   * read back and dequantised; the gains are read but not used.
   */
  function DecodeFeedback(data: seq<Byte>): (f: Feedback)
    requires |data| == 8
    ensures P_MIN <= f.position <= P_MAX && V_MIN <= f.velocity <= V_MAX && T_MIN <= f.torque <= T_MAX
  {
    var c := UnpackInts(data);
    Feedback(UIntToFloat(c.p, P_MIN, P_MAX, 16),
             UIntToFloat(c.v, V_MIN, V_MAX, 12),
             UIntToFloat(c.t, T_MIN, T_MAX, 12))
  }

  // ---------------------------------------------------------------------------
  // Lemmas
  // ---------------------------------------------------------------------------

  /** The packed bytes as arithmetic on the integers: each OR joins disjoint bit fields. */
  lemma PackedBytes(c: Command)
    requires Fits(c)
    ensures PackInts(c) == [c.p / 0x100, c.p % 0x100, c.v / 0x10, (c.v % 0x10) * 0x10 + c.kp / 0x100,
                            c.kp % 0x100, c.kd / 0x10, (c.kd % 0x10) * 0x10 + c.t / 0x100, c.t % 0x100]
  {
    assert Pow2(4) == 0x10;
    OrIntoClearLowBits(c.v % 0x10, 4, c.kp / 0x100);
    OrIntoClearLowBits(c.kd % 0x10, 4, c.t / 0x100);
  }

  /** The unpacked integers as arithmetic on the bytes. */
  lemma UnpackedInts(data: seq<Byte>)
    requires |data| == 8
    ensures UnpackInts(data) == Command(data[0] as int * 0x100 + data[1], data[2] as int * 0x10 + data[3] / 0x10,
                                        (data[3] % 0x10) as int * 0x100 + data[4],
                                        data[5] as int * 0x10 + data[6] / 0x10,
                                        (data[6] % 0x10) as int * 0x100 + data[7])
  {
    assert Pow2(4) == 0x10 && Pow2(8) == 0x100;
    OrIntoClearLowBits(data[0], 8, data[1]);
    OrIntoClearLowBits(data[2], 4, data[3] / 0x10);
    OrIntoClearLowBits(data[3] % 0x10, 8, data[4]);
    OrIntoClearLowBits(data[5], 4, data[6] / 0x10);
    OrIntoClearLowBits(data[6] % 0x10, 8, data[7]);
  }

  /** Unpacking a packed payload gives back every integer that went in. */
  lemma PackUnpackRoundTrip(c: Command)
    requires Fits(c)
    ensures UnpackInts(PackInts(c)) == c
  {
    PackedBytes(c);
    UnpackedInts(PackInts(c));
  }

  /** Every eight-byte payload is the packing of the integers it unpacks to: the layout wastes no bit. */
  lemma UnpackPackRoundTrip(data: seq<Byte>)
    requires |data| == 8
    ensures PackInts(UnpackInts(data)) == data
  {
    var c := UnpackInts(data);
    UnpackedInts(data);
    PackedBytes(c);
    JoinSplit(data[0], 0x100, data[1]);
    JoinSplit(data[2], 0x10, data[3] / 0x10);
    JoinSplit(data[3] % 0x10, 0x100, data[4]);
    JoinSplit(data[5], 0x10, data[6] / 0x10);
    JoinSplit(data[6] % 0x10, 0x100, data[7]);
    assert PackInts(c)[3] == data[3];
    assert PackInts(c)[6] == data[6];
  }

  lemma JoinSplit(hi: nat, m: nat, lo: nat)
    requires m > 0 && lo < m
    ensures (hi * m + lo) / m == hi && (hi * m + lo) % m == lo
  {
    DivModUnique(hi * m + lo, m, hi, lo);
  }

  /** Clamping happens before quantising: an input is packed exactly as its clamped value. */
  lemma PackCommandClamps(p: real, v: real, kp: real, kd: real, t: real)
    ensures PackCommand(p, v, kp, kd, t)
         == PackCommand(Constrain(p, P_MIN, P_MAX), Constrain(v, V_MIN, V_MAX),
                        Constrain(kp, KP_MIN, KP_MAX), Constrain(kd, KD_MIN, KD_MAX),
                        Constrain(t, T_MIN, T_MAX))
    ensures p >= P_MAX ==> PackCommand(p, v, kp, kd, t) == PackCommand(P_MAX, v, kp, kd, t)
    ensures p <= P_MIN ==> PackCommand(p, v, kp, kd, t) == PackCommand(P_MIN, v, kp, kd, t)
  {
  }

  /**
   * Quantising then dequantising truncates: the value read back lies at
   * most one quantisation step below the value that went in, never above.
   */
  lemma QuantiseRoundTrip(x: real, xMin: real, xMax: real, bits: nat)
    requires SupportedWidth(bits) && xMin < xMax && xMin <= x <= xMax
    ensures var y := UIntToFloat(FloatToUInt(x, xMin, xMax, bits), xMin, xMax, bits);
      y <= x < y + (xMax - xMin) / MaxCode(bits)
  {
    var span, m := xMax - xMin, MaxCode(bits);
    var n := FloatToUInt(x, xMin, xMax, bits);
    ScaleBack(x - xMin, span, m, n as real);
    DequantisedValue(n, xMin, xMax, bits);
  }

  /** The value of a code on a supported width, unfolded. */
  lemma DequantisedValue(n: int, xMin: real, xMax: real, bits: nat)
    requires SupportedWidth(bits)
    ensures MaxCode(bits) > 0.0
    ensures UIntToFloat(n, xMin, xMax, bits) == (n as real) * (xMax - xMin) / MaxCode(bits) + xMin
  {
  }

  /**
   * The payload decodes to setpoints within one quantisation step below the
   * clamped inputs.
   */
  lemma PackCommandRoundTrip(p: real, v: real, kp: real, kd: real, t: real)
    ensures var c := UnpackInts(PackCommand(p, v, kp, kd, t));
      && c == Quantise(p, v, kp, kd, t)
      && Within(UIntToFloat(c.p, P_MIN, P_MAX, 16), Constrain(p, P_MIN, P_MAX), P_MIN, P_MAX, 16)
      && Within(UIntToFloat(c.v, V_MIN, V_MAX, 12), Constrain(v, V_MIN, V_MAX), V_MIN, V_MAX, 12)
      && Within(UIntToFloat(c.kp, KP_MIN, KP_MAX, 12), Constrain(kp, KP_MIN, KP_MAX), KP_MIN, KP_MAX, 12)
      && Within(UIntToFloat(c.kd, KD_MIN, KD_MAX, 12), Constrain(kd, KD_MIN, KD_MAX), KD_MIN, KD_MAX, 12)
      && Within(UIntToFloat(c.t, T_MIN, T_MAX, 12), Constrain(t, T_MIN, T_MAX), T_MIN, T_MAX, 12)
  {
    PackUnpackRoundTrip(Quantise(p, v, kp, kd, t));
    QuantiseRoundTrip(Constrain(p, P_MIN, P_MAX), P_MIN, P_MAX, 16);
    QuantiseRoundTrip(Constrain(v, V_MIN, V_MAX), V_MIN, V_MAX, 12);
    QuantiseRoundTrip(Constrain(kp, KP_MIN, KP_MAX), KP_MIN, KP_MAX, 12);
    QuantiseRoundTrip(Constrain(kd, KD_MIN, KD_MAX), KD_MIN, KD_MAX, 12);
    QuantiseRoundTrip(Constrain(t, T_MIN, T_MAX), T_MIN, T_MAX, 12);
  }

  /** A command payload reads back as its clamped position, velocity and torque, each truncated to its quantisation step. */
  lemma FeedbackOfCommand(p: real, v: real, kp: real, kd: real, t: real)
    ensures var f := DecodeFeedback(PackCommand(p, v, kp, kd, t));
      && Within(f.position, Constrain(p, P_MIN, P_MAX), P_MIN, P_MAX, 16)
      && Within(f.velocity, Constrain(v, V_MIN, V_MAX), V_MIN, V_MAX, 12)
      && Within(f.torque, Constrain(t, T_MIN, T_MAX), T_MIN, T_MAX, 12)
  {
    PackCommandRoundTrip(p, v, kp, kd, t);
  }

  /** y is x truncated to its quantisation step. */
  predicate Within(y: real, x: real, xMin: real, xMax: real, bits: nat)
  {
    SupportedWidth(bits) && y <= x < y + (xMax - xMin) / MaxCode(bits)
  }

  // ---------------------------------------------------------------------------
  // Real arithmetic used above
  // ---------------------------------------------------------------------------

  lemma QuantisedInRange(d: real, span: real, m: real)
    requires 0.0 <= d <= span && span > 0.0 && m > 0.0
    ensures 0.0 <= d * m / span <= m
  {
    assert d * m <= span * m;
  }

  lemma DequantisedInRange(n: real, span: real, m: real)
    requires m > 0.0
    ensures 0.0 <= n <= m && span >= 0.0 ==> 0.0 <= n * span / m <= span
  {
    if 0.0 <= n <= m && span >= 0.0 {
      var r := n * span / m;
      assert r * m == n * span;
      MulMonotone(n, m, span);
      assert r * m <= span * m;
      if r > span {
        MulStrict(span, r, m);
      }
      MulNonNeg(n, span);
      if r < 0.0 {
        MulStrict(r, 0.0, m);
      }
    }
  }

  lemma MulMonotone(a: real, b: real, c: real)
    requires a <= b && c >= 0.0
    ensures a * c <= b * c
  {
  }

  lemma MulStrict(a: real, b: real, c: real)
    requires a < b && c > 0.0
    ensures a * c < b * c
  {
  }

  lemma MulNonNeg(a: real, b: real)
    requires a >= 0.0 && b >= 0.0
    ensures a * b >= 0.0
  {
  }

  /** From n <= d * m / span < n + 1 back to n * span / m <= d < n * span / m + span / m. */
  lemma ScaleBack(d: real, span: real, m: real, n: real)
    requires span > 0.0 && m > 0.0
    requires n <= d * m / span < n + 1.0
    ensures n * span / m <= d < n * span / m + span / m
  {
    var q := d * m / span;
    var lo, step := n * span / m, span / m;
    assert q * span == d * m;
    assert lo * m == n * span;
    assert step * m == span;
    MulMonotone(n, q, span);
    CancelFactor(lo, d, m);
    MulStrict(q, n + 1.0, span);
    assert (n + 1.0) * span == n * span + span;
    assert (lo + step) * m == lo * m + step * m;
    calc {
      d * m;
      q * span;
    <
      (n + 1.0) * span;
      n * span + span;
      lo * m + step * m;
      (lo + step) * m;
    }
    CancelFactorStrict(d, lo + step, m);
  }

  lemma CancelFactor(a: real, b: real, m: real)
    requires m > 0.0 && a * m <= b * m
    ensures a <= b
  {
    if a > b {
      MulStrict(b, a, m);
    }
  }

  lemma CancelFactorStrict(a: real, b: real, m: real)
    requires m > 0.0 && a * m < b * m
    ensures a < b
  {
    if a >= b {
      MulMonotone(b, a, m);
    }
  }
}
