/** The sensor modes the driver offers and the pad-format operations that are
    answered from that table alone: code and size enumeration, the distance
    between a mode and a requested size, and the best-fit search. */
module Modes {
  import opened Registers
  import opened Tables

  /** Media bus code of 10-bit RGGB Bayer data (from the kernel's media-bus-format.h). */
  const MEDIA_BUS_FMT_SRGGB10_1X10: u32 := 0x300f
  /** V4L2_FIELD_NONE: progressive frames. */
  const V4L2_FIELD_NONE: u32 := 1

  /** A frame interval, in seconds, as a fraction. */
  datatype Fract = Fract(numerator: u32, denominator: u32)

  /** One entry of supported_modes (struct imx477_mode). */
  datatype Mode = Mode(busFmt: u32, width: u32, height: u32, lineLengthPix: u32,
                       maxFps: Fract, timePerFrameDefault: Fract, regList: RegList)

  /** supported_modes: 12 Mpix at 10 fps, 4K at 20 fps, 1080p at 60 fps. */
  const SupportedModes: seq<Mode> := [
    Mode(MEDIA_BUS_FMT_SRGGB10_1X10, 4056, 3040, 0x49a8,
         Fract(100, 1000), Fract(100, 1000), Regs4056x3040),
    Mode(MEDIA_BUS_FMT_SRGGB10_1X10, 3840, 2160, 0x3480,
         Fract(100, 2000), Fract(100, 2000), Regs3840x2160),
    Mode(MEDIA_BUS_FMT_SRGGB10_1X10, 1920, 1080, 0x2070,
         Fract(100, 6000), Fract(100, 6000), Regs1920x1080)
  ]

  /** cfg_num: the number of supported modes, set at probe time. */
  const CfgNum: nat := |SupportedModes|

  /** A media-bus frame format (struct v4l2_mbus_framefmt, the fields the driver sets). */
  datatype MbusFormat = MbusFormat(width: u32, height: u32, code: u32, field: u32)

  /** A frame-size range reported by size enumeration. */
  datatype FrameSize = FrameSize(minWidth: u32, maxWidth: u32, minHeight: u32, maxHeight: u32)

  datatype Result<T> = Ok(value: T) | Err(code: int)

  /** The format the driver reports for mode `i`. */
  function ModeFormat(i: nat): (f: MbusFormat)
    requires i < CfgNum
    ensures f.width == SupportedModes[i].width && f.height == SupportedModes[i].height
    ensures f.code == MEDIA_BUS_FMT_SRGGB10_1X10 && f.field == V4L2_FIELD_NONE
  {
    var m := SupportedModes[i];
    MbusFormat(m.width, m.height, m.busFmt, V4L2_FIELD_NONE)
  }

  /** Facts about the table the rest of the driver relies on. */
  lemma ModeTableFacts(i: nat)
    requires i < CfgNum
    ensures 1080 <= SupportedModes[i].height <= 3040
    ensures 1920 <= SupportedModes[i].width <= 4056
    ensures SupportedModes[i].width < SupportedModes[i].lineLengthPix <= 0xfff0
    ensures SupportedModes[i].maxFps == SupportedModes[i].timePerFrameDefault
    ensures SupportedModes[i].busFmt == MEDIA_BUS_FMT_SRGGB10_1X10
  {
  }

  /** imx477_enum_mbus_code: the bus code of mode `index`, or -EINVAL past the table. */
  function EnumMbusCode(index: u32): (r: Result<u32>)
    ensures r.Err? <==> index >= CfgNum
    ensures r.Err? ==> r.code == -EINVAL
    ensures r.Ok? ==> r.value == MEDIA_BUS_FMT_SRGGB10_1X10
  {
    if index >= CfgNum then Err(-EINVAL) else Ok(SupportedModes[index].busFmt)
  }

  /** imx477_enum_frame_size: the fixed size of mode `index` when `code` is its
      bus code; -EINVAL past the table or for another code. */
  function EnumFrameSize(index: u32, code: u32): (r: Result<FrameSize>)
    ensures r.Ok? <==> index < CfgNum && SupportedModes[index].busFmt == code
    ensures r.Err? ==> r.code == -EINVAL
    ensures r.Ok? ==> r.value.minWidth == r.value.maxWidth == SupportedModes[index].width
    ensures r.Ok? ==> r.value.minHeight == r.value.maxHeight == SupportedModes[index].height
  {
    if index >= CfgNum then Err(-EINVAL)
    else if code != SupportedModes[index].busFmt then Err(-EINVAL)
    else
      var m := SupportedModes[index];
      Ok(FrameSize(m.width, m.width, m.height, m.height))
  }

  function Abs(x: int): nat { if x < 0 then -x else x }

  /** imx477_get_reso_dist: the L1 distance between a mode's size and a requested size. */
  function ResoDist(m: Mode, width: int, height: int): (d: nat)
    ensures d == 0 <==> m.width == width && m.height == height
    ensures d >= Abs(m.width - width) && d >= Abs(m.height - height)
  {
    Abs(m.width - width) + Abs(m.height - height)
  }

  /** C's conversion of an unsigned value, taken modulo 2^32, to a 32-bit `int`:
      the two's-complement reading of its low 32 bits. */
  function S32(v: int): (r: int)
    ensures -0x8000_0000 <= r < 0x8000_0000
    ensures (r - v) % 0x1_0000_0000 == 0
  {
    var u := v % 0x1_0000_0000;
    if u < 0x8000_0000 then u else u - 0x1_0000_0000
  }

  /** imx477_get_reso_dist as the C code computes it: each difference of two
      `unsigned int` sizes wraps modulo 2^32 and is read as an `int` by `abs`,
      and the sum is returned as an `int`, wrapping again (`abs` of the most
      negative `int` gives 2^31 or wraps to -2^31; the wrapped sum is the same). */
  function ResoDistAsWritten(m: Mode, width: u32, height: u32): (d: int)
    ensures -0x8000_0000 <= d < 0x8000_0000
    ensures d == ResoDist(m, width, height) <==> ResoDist(m, width, height) < 0x8000_0000
  {
    var dw := S32(m.width - width);
    var dh := S32(m.height - height);
    assert Abs(m.width - width) < 0x8000_0000 ==> dw == m.width - width;
    assert Abs(m.height - height) < 0x8000_0000 ==> dh == m.height - height;
    S32(Abs(dw) + Abs(dh))
  }

  /** Mode `i` is the one the best-fit search must return for the request:
      the lowest-index mode among those with the requested code that is
      closest in size, or mode 0 when no mode has that code. */
  ghost predicate IsBestFit(i: nat, code: u32, width: int, height: int)
  {
    i < CfgNum &&
    if exists j :: 0 <= j < CfgNum && SupportedModes[j].busFmt == code then
      SupportedModes[i].busFmt == code &&
      forall j :: 0 <= j < CfgNum && SupportedModes[j].busFmt == code ==>
        ResoDist(SupportedModes[i], width, height) <= ResoDist(SupportedModes[j], width, height) &&
        (j < i ==> ResoDist(SupportedModes[i], width, height) < ResoDist(SupportedModes[j], width, height))
    else
      i == 0
  }

  /** imx477_find_best_fit: one pass over the table keeping the first mode with
      the requested code that is strictly closer than the best so far. */
  method FindBestFit(code: u32, width: int, height: int) returns (best: nat)
    ensures IsBestFit(best, code, width, height)
  {
    var bestDist := -1;
    best := 0;
    for i := 0 to CfgNum
      invariant best < CfgNum
      invariant bestDist == -1 <==> forall j :: 0 <= j < i ==> SupportedModes[j].busFmt != code
      invariant bestDist == -1 ==> best == 0
      invariant bestDist != -1 ==>
        best < i && SupportedModes[best].busFmt == code &&
        bestDist == ResoDist(SupportedModes[best], width, height) &&
        forall j :: 0 <= j < i && SupportedModes[j].busFmt == code ==>
          bestDist <= ResoDist(SupportedModes[j], width, height) &&
          (j < best ==> bestDist < ResoDist(SupportedModes[j], width, height))
    {
      var dist := ResoDist(SupportedModes[i], width, height);
      if (bestDist == -1 || dist < bestDist) && SupportedModes[i].busFmt == code {
        bestDist := dist;
        best := i;
      }
    }
  }

  /** The best fit by the wrapped distances of ResoDistAsWritten: the
      lowest-index mode among those with the requested code whose wrapped
      distance is smallest, or mode 0 when no mode has that code. */
  ghost predicate IsBestFitAsWritten(i: nat, code: u32, width: u32, height: u32)
  {
    i < CfgNum &&
    if exists j :: 0 <= j < CfgNum && SupportedModes[j].busFmt == code then
      SupportedModes[i].busFmt == code &&
      forall j :: 0 <= j < CfgNum && SupportedModes[j].busFmt == code ==>
        ResoDistAsWritten(SupportedModes[i], width, height) <= ResoDistAsWritten(SupportedModes[j], width, height) &&
        (j < i ==> ResoDistAsWritten(SupportedModes[i], width, height) < ResoDistAsWritten(SupportedModes[j], width, height))
    else
      i == 0
  }

  /** No mode with the requested code has wrapped distance -1, the value the
      search also uses for "no mode yet". */
  ghost predicate NoSentinelDist(code: u32, width: u32, height: u32)
  {
    forall j :: 0 <= j < CfgNum && SupportedModes[j].busFmt == code ==>
      ResoDistAsWritten(SupportedModes[j], width, height) != -1
  }

  /** imx477_find_best_fit as written, on the wrapped distances of
      imx477_get_reso_dist: when no candidate's distance is -1 it returns the
      best fit by those distances. */
  method FindBestFitAsWritten(code: u32, width: u32, height: u32) returns (best: nat)
    ensures best < CfgNum
    ensures NoSentinelDist(code, width, height) ==> IsBestFitAsWritten(best, code, width, height)
  {
    ghost var clean := NoSentinelDist(code, width, height);
    var bestDist := -1;
    best := 0;
    for i := 0 to CfgNum
      invariant best < CfgNum
      invariant clean ==> (bestDist == -1 <==> forall j :: 0 <= j < i ==> SupportedModes[j].busFmt != code)
      invariant clean && bestDist == -1 ==> best == 0
      invariant clean && bestDist != -1 ==>
        best < i && SupportedModes[best].busFmt == code &&
        bestDist == ResoDistAsWritten(SupportedModes[best], width, height) &&
        forall j :: 0 <= j < i && SupportedModes[j].busFmt == code ==>
          bestDist <= ResoDistAsWritten(SupportedModes[j], width, height) &&
          (j < best ==> bestDist < ResoDistAsWritten(SupportedModes[j], width, height))
    {
      var dist := ResoDistAsWritten(SupportedModes[i], width, height);
      if (bestDist == -1 || dist < bestDist) && SupportedModes[i].busFmt == code {
        bestDist := dist;
        best := i;
      }
    }
  }

  /** A request of 2147487074x2442: each width difference exceeds 2^31, so
      mode 2's wraps to a smaller value than mode 1's. The search as written
      returns mode 2, while by the true distance mode 1 is the best fit. */
  lemma ResoDistWraps()
    ensures NoSentinelDist(MEDIA_BUS_FMT_SRGGB10_1X10, 2147487074, 2442)
    ensures IsBestFitAsWritten(2, MEDIA_BUS_FMT_SRGGB10_1X10, 2147487074, 2442)
    ensures IsBestFit(1, MEDIA_BUS_FMT_SRGGB10_1X10, 2147487074, 2442)
  {
    assert S32(4056 - 2147487074) == -2147483018 && S32(3040 - 2442) == 598;
    assert S32(3840 - 2147487074) == -2147483234 && S32(2160 - 2442) == -282;
    assert S32(1920 - 2147487074) == 2147482142 && S32(1080 - 2442) == -1362;
    assert S32(2147483616) == 2147483616 && S32(2147483516) == 2147483516 && S32(2147483504) == 2147483504;
    assert ResoDistAsWritten(SupportedModes[0], 2147487074, 2442) == 2147483616;
    assert ResoDistAsWritten(SupportedModes[1], 2147487074, 2442) == 2147483516;
    assert ResoDistAsWritten(SupportedModes[2], 2147487074, 2442) == 2147483504;
    assert ResoDist(SupportedModes[0], 2147487074, 2442) == 2147483616;
    assert ResoDist(SupportedModes[1], 2147487074, 2442) == 2147483516;
    assert ResoDist(SupportedModes[2], 2147487074, 2442) == 2147486516;
  }

  /** There is exactly one best fit for every request. */
  lemma BestFitUnique(i: nat, j: nat, code: u32, width: int, height: int)
    requires IsBestFit(i, code, width, height) && IsBestFit(j, code, width, height)
    ensures i == j
  {
  }

  /** Every size that size enumeration lists for a code is reproduced exactly
      by the best-fit search for that code and size. */
  lemma EnumeratedSizeIsExact(index: u32, code: u32, i: nat)
    requires EnumFrameSize(index, code).Ok?
    requires IsBestFit(i, code, EnumFrameSize(index, code).value.maxWidth,
                       EnumFrameSize(index, code).value.maxHeight)
    ensures SupportedModes[i].width == SupportedModes[index].width
    ensures SupportedModes[i].height == SupportedModes[index].height
  {
    var m := SupportedModes[index];
    assert ResoDist(m, m.width, m.height) == 0;
    assert ResoDist(SupportedModes[i], m.width, m.height) == 0;
  }

  /** A request that names a mode's exact size and code selects that mode. */
  lemma ExactRequestSelectsMode(i: nat, j: nat)
    requires i < CfgNum
    requires IsBestFit(j, SupportedModes[i].busFmt, SupportedModes[i].width, SupportedModes[i].height)
    ensures j == i
  {
    var m := SupportedModes[i];
    assert ResoDist(m, m.width, m.height) == 0;
    assert ResoDist(SupportedModes[j], m.width, m.height) == 0;
  }
}
