/** Frame-timing arithmetic: the frame length (in lines) a frame interval
    needs at the sensor's fixed pixel rate, and the long-exposure shift that
    brings a frame length into the 16-bit frame-length register. */
module Timing {
  import opened Registers
  import opened Modes

  /** Pixel rate of every mode, in pixels per second. */
  const PIXEL_RATE: nat := 614400000
  /** Largest value the frame-length register takes. */
  const FRAME_LENGTH_MAX: nat := 0xffdc
  /** Largest value the line-length register takes. */
  const LINE_LENGTH_MAX: nat := 0xfff0
  /** Largest long-exposure shift the driver's vblank range allows. */
  const LONG_EXP_SHIFT_MAX: nat := 7
  /** Lines of a frame that cannot be exposed. */
  const EXPOSURE_OFFSET: nat := 22

  function Pow2(k: nat): (p: nat)
    ensures p >= 1
  {
    if k == 0 then 1 else 2 * Pow2(k - 1)
  }

  /** `v >> k` on an unsigned value. */
  function Shr(v: nat, k: nat): (r: nat)
    ensures r <= v
  {
    var p := Pow2(k);
    assert 0 <= v / p <= v by { DivLe(v, p); }
    v / p
  }

  lemma DivLe(v: nat, p: nat)
    requires p >= 1
    ensures 0 <= v / p <= v
  {
    MulLe(1, p, v / p);
    assert v == p * (v / p) + v % p;
  }

  /** Shifting by one more bit halves once more. */
  lemma ShrStep(v: nat, k: nat)
    ensures Shr(v, k + 1) == Shr(v / 2, k)
  {
    var p := Pow2(k);
    var q := v / 2 / p;
    var r := v / 2 % p;
    assert v / 2 == p * q + r;
    assert v == 2 * (v / 2) + v % 2;
    assert v == (2 * p) * q + (2 * r + v % 2);
    MulLe(r + 1, p, 2);
    DivModUnique(v, 2 * p, q, 2 * r + v % 2);
  }

  /** Shifting by one more bit halves the shifted value. */
  lemma ShrHalve(v: nat, k: nat)
    ensures Shr(v, k + 1) == Shr(v, k) / 2
  {
    var p := Pow2(k);
    var q := v / p / 2;
    var r2 := v / p % 2;
    var r1 := v % p;
    assert v / p == 2 * q + r2;
    assert v == p * (v / p) + r1;
    assert p * (2 * q + r2) == (2 * p) * q + p * r2;
    assert 0 <= p * r2 <= p by { MulLe(r2, 1, p); MulNonneg(r2, p); }
    DivModUnique(v, 2 * p, q, p * r2 + r1);
  }

  lemma LtCancel(x: int, y: int, p: int)
    requires p > 0 && x * p < y * p
    ensures x < y
  {
    if x >= y {
      MulLe(y, x, p);
    }
  }

  /** Shifting keeps the order of values. */
  lemma ShrMonotonic(a: nat, b: nat, k: nat)
    requires a <= b
    ensures Shr(a, k) <= Shr(b, k)
  {
    var p := Pow2(k);
    var qa, qb := a / p, b / p;
    assert a == qa * p + a % p && a % p >= 0;
    assert b == qb * p + b % p && b % p < p;
    assert (qb + 1) * p == qb * p + p;
    LtCancel(qa, qb + 1, p);
  }

  /** The long-exposure shift imx477_set_frame_length settles on for a frame
      length of `v` lines: the number of halvings until it fits the register. */
  function ShiftFor(v: nat): (k: nat)
    ensures Shr(v, k) <= FRAME_LENGTH_MAX
    decreases v
  {
    if v <= FRAME_LENGTH_MAX then 0
    else
      var k := ShiftFor(v / 2);
      ShrStep(v, k);
      1 + k
  }

  /** The shift is the least one that makes the value fit. */
  lemma {:induction false} ShiftForLeast(v: nat, j: nat)
    requires j < ShiftFor(v)
    ensures Shr(v, j) > FRAME_LENGTH_MAX
    decreases v
  {
    if j > 0 {
      ShiftForLeast(v / 2, j - 1);
      ShrStep(v, j - 1);
    }
  }

  /** The shift is pinned down by the two facts about it: the least k whose
      shift fits the register. */
  lemma ShiftForExact(v: nat, k: nat)
    requires Shr(v, k) <= FRAME_LENGTH_MAX
    requires forall j :: 0 <= j < k ==> Shr(v, j) > FRAME_LENGTH_MAX
    ensures k == ShiftFor(v)
  {
    if k < ShiftFor(v) {
      ShiftForLeast(v, k);
    }
  }

  /** A frame length of at most 2^n register maxima needs a shift of at most n. */
  lemma {:induction false} ShiftForBound(v: nat, n: nat)
    requires v <= Pow2(n) * FRAME_LENGTH_MAX
    ensures ShiftFor(v) <= n
    decreases n
  {
    if v > FRAME_LENGTH_MAX {
      ShiftForBound(v / 2, n - 1);
    }
  }

  /** The vblank range the driver sets (frame lengths up to 128 register maxima)
      never needs more than LONG_EXP_SHIFT_MAX, and no 32-bit length more than 17. */
  lemma ShiftForLimits(v: nat)
    ensures v <= 128 * FRAME_LENGTH_MAX ==> ShiftFor(v) <= LONG_EXP_SHIFT_MAX
    ensures v < 0x1_0000_0000 ==> ShiftFor(v) <= 17
  {
    assert Pow2(7) == 128 && Pow2(17) == 131072;
    if v <= 128 * FRAME_LENGTH_MAX {
      ShiftForBound(v, 7);
    }
    if v < 0x1_0000_0000 {
      ShiftForBound(v, 17);
    }
  }

  /** Any exposure up to the frame length fits the 16-bit exposure register once
      shifted by the frame length's shift. */
  lemma ExposureFits(exposure: nat, frameLength: nat)
    requires exposure <= frameLength
    ensures Shr(exposure, ShiftFor(frameLength)) <= FRAME_LENGTH_MAX
  {
    ShrMonotonic(exposure, frameLength, ShiftFor(frameLength));
  }

  /** The divisor do_div receives: a 64-bit product cut to do_div's 32-bit
      divisor parameter. */
  function DoDivBase(tpf: Fract, m: Mode): u32
  {
    (tpf.denominator * m.lineLengthPix) % 0x1_0000_0000
  }

  /** Lines per frame at the pixel rate, before clamping. */
  function RawFrameLength(m: Mode, tpf: Fract): nat
    requires DoDivBase(tpf, m) != 0
  {
    tpf.numerator * PIXEL_RATE / DoDivBase(tpf, m)
  }

  /** imx477_get_frame_length: the line count for the frame interval `tpf`,
      cut to the register maximum and raised to the mode height. */
  function GetFrameLength(m: Mode, tpf: Fract): (fl: nat)
    requires DoDivBase(tpf, m) != 0
    ensures fl >= m.height
    ensures m.height <= FRAME_LENGTH_MAX ==> fl <= FRAME_LENGTH_MAX
    ensures m.height <= RawFrameLength(m, tpf) <= FRAME_LENGTH_MAX ==> fl == RawFrameLength(m, tpf)
    ensures RawFrameLength(m, tpf) > FRAME_LENGTH_MAX ==> fl == if m.height > FRAME_LENGTH_MAX then m.height else FRAME_LENGTH_MAX
    ensures RawFrameLength(m, tpf) < m.height ==> fl == m.height
  {
    var raw := RawFrameLength(m, tpf);
    var clamped := if raw > FRAME_LENGTH_MAX then FRAME_LENGTH_MAX else raw;
    if clamped < m.height then m.height else clamped
  }

  /** The frame lengths of the three modes: 3258, 2285 and 1233 lines, with no
      truncation of the divisor. */
  lemma ModeFrameLengths(i: nat)
    requires i < CfgNum
    ensures DoDivBase(SupportedModes[i].maxFps, SupportedModes[i]) ==
            SupportedModes[i].maxFps.denominator * SupportedModes[i].lineLengthPix
    ensures GetFrameLength(SupportedModes[i], SupportedModes[i].maxFps) ==
            [3258, 2285, 1233][i]
  {
  }
}
