/** The driver's V4L2 controls as the numbers it reads and writes: for each
    control its range, step, default and current value, as registered in
    imx477_init_controls and re-ranged by the framing code. */
module Controls {
  import opened Registers
  import opened Timing

  datatype Control =
    | LinkFreq | PixelRate | VBlank | HBlank | Exposure | AnalogueGain | DigitalGain
    | HFlip | VFlip | TestPattern
    | TestPatternRed | TestPatternGreenR | TestPatternBlue | TestPatternGreenB

  /** An integer (or menu) control: its range, step, default and current value. */
  datatype IntCtrl = IntCtrl(minimum: int, maximum: int, step: int, def: int, val: int)

  /** The control handler: one entry per registered control. */
  datatype Ctrls = Ctrls(
    linkFreq: IntCtrl, pixelRate: IntCtrl, vblank: IntCtrl, hblank: IntCtrl,
    exposure: IntCtrl, analogueGain: IntCtrl, digitalGain: IntCtrl,
    hflip: IntCtrl, vflip: IntCtrl, testPattern: IntCtrl,
    testPatternRed: IntCtrl, testPatternGreenR: IntCtrl,
    testPatternBlue: IntCtrl, testPatternGreenB: IntCtrl)

  /** The entry of control `c`. */
  function Get(s: Ctrls, c: Control): IntCtrl
  {
    match c
    case LinkFreq => s.linkFreq
    case PixelRate => s.pixelRate
    case VBlank => s.vblank
    case HBlank => s.hblank
    case Exposure => s.exposure
    case AnalogueGain => s.analogueGain
    case DigitalGain => s.digitalGain
    case HFlip => s.hflip
    case VFlip => s.vflip
    case TestPattern => s.testPattern
    case TestPatternRed => s.testPatternRed
    case TestPatternGreenR => s.testPatternGreenR
    case TestPatternBlue => s.testPatternBlue
    case TestPatternGreenB => s.testPatternGreenB
  }

  /** The handler with the entry of control `c` replaced by `x`. */
  function Put(s: Ctrls, c: Control, x: IntCtrl): (r: Ctrls)
    ensures Get(r, c) == x
    ensures forall d :: d != c ==> Get(r, d) == Get(s, d)
  {
    match c
    case LinkFreq => s.(linkFreq := x)
    case PixelRate => s.(pixelRate := x)
    case VBlank => s.(vblank := x)
    case HBlank => s.(hblank := x)
    case Exposure => s.(exposure := x)
    case AnalogueGain => s.(analogueGain := x)
    case DigitalGain => s.(digitalGain := x)
    case HFlip => s.(hflip := x)
    case VFlip => s.(vflip := x)
    case TestPattern => s.(testPattern := x)
    case TestPatternRed => s.(testPatternRed := x)
    case TestPatternGreenR => s.(testPatternGreenR := x)
    case TestPatternBlue => s.(testPatternBlue := x)
    case TestPatternGreenB => s.(testPatternGreenB := x)
  }

  /** A handler is determined by its entries. */
  lemma CtrlsExt(s: Ctrls, t: Ctrls)
    requires forall c :: Get(s, c) == Get(t, c)
    ensures s == t
  {
    assert Get(s, LinkFreq) == Get(t, LinkFreq) && Get(s, PixelRate) == Get(t, PixelRate);
    assert Get(s, VBlank) == Get(t, VBlank) && Get(s, HBlank) == Get(t, HBlank);
    assert Get(s, Exposure) == Get(t, Exposure) && Get(s, AnalogueGain) == Get(t, AnalogueGain);
    assert Get(s, DigitalGain) == Get(t, DigitalGain) && Get(s, HFlip) == Get(t, HFlip);
    assert Get(s, VFlip) == Get(t, VFlip) && Get(s, TestPattern) == Get(t, TestPattern);
    assert Get(s, TestPatternRed) == Get(t, TestPatternRed);
    assert Get(s, TestPatternGreenR) == Get(t, TestPatternGreenR);
    assert Get(s, TestPatternBlue) == Get(t, TestPatternBlue);
    assert Get(s, TestPatternGreenB) == Get(t, TestPatternGreenB);
  }

  /** The current value lies within the control's range. */
  predicate InRange(x: IntCtrl)
  {
    x.minimum <= x.val <= x.maximum
  }

  /** A control with a non-negative range that holds its value. */
  predicate Bounded(x: IntCtrl)
  {
    0 <= x.minimum && InRange(x)
  }

  /** What the driver relies on about its controls, whatever the mode: every
      value lies in its range (the control framework's own invariant), those
      that feed a register's width or an index are non-negative, and the
      ranges are the registered ones or those the framing code sets. */
  predicate SaneCtrls(s: Ctrls)
  {
    InRange(s.linkFreq) && InRange(s.pixelRate) && InRange(s.analogueGain) && InRange(s.digitalGain) &&
    InRange(s.testPatternRed) && InRange(s.testPatternGreenR) &&
    InRange(s.testPatternBlue) && InRange(s.testPatternGreenB) &&
    Bounded(s.vblank) && Bounded(s.hblank) && Bounded(s.exposure) &&
    Bounded(s.hflip) && Bounded(s.vflip) && Bounded(s.testPattern) &&
    s.vblank.maximum <= 128 * FRAME_LENGTH_MAX && s.hblank.maximum <= 0xffff &&
    s.exposure.minimum == 4 && s.exposure.step == 1 && s.exposure.maximum <= 128 * FRAME_LENGTH_MAX &&
    s.hflip.maximum <= 1 && s.vflip.maximum <= 1 && s.testPattern.maximum < |TestPatternVal|
  }

  /** A new value the framework accepts for control `c`. */
  predicate Accepts(s: Ctrls, c: Control, v: int)
  {
    Get(s, c).minimum <= v <= Get(s, c).maximum
  }

  /** The controls as imx477_init_controls registers them, before the framing
      limits of the current mode are applied. */
  const InitialCtrls: Ctrls := Ctrls(
    linkFreq := IntCtrl(0, 0, 1, 0, 0),
    pixelRate := IntCtrl(PIXEL_RATE, PIXEL_RATE, 1, PIXEL_RATE, PIXEL_RATE),
    vblank := IntCtrl(0, 0xffff, 1, 0, 0),
    hblank := IntCtrl(0, 0xffff, 1, 0, 0),
    exposure := IntCtrl(4, FRAME_LENGTH_MAX - EXPOSURE_OFFSET, 1, 0x640, 0x640),
    analogueGain := IntCtrl(0, 978, 1, 0, 0),
    digitalGain := IntCtrl(0x100, 0xffff, 1, 0x100, 0x100),
    hflip := IntCtrl(0, 1, 1, 0, 0),
    vflip := IntCtrl(0, 1, 1, 0, 0),
    testPattern := IntCtrl(0, 4, 1, 0, 0),
    testPatternRed := IntCtrl(0, 0xfff, 1, 0xfff, 0xfff),
    testPatternGreenR := IntCtrl(0, 0xfff, 1, 0xfff, 0xfff),
    testPatternBlue := IntCtrl(0, 0xfff, 1, 0xfff, 0xfff),
    testPatternGreenB := IntCtrl(0, 0xfff, 1, 0xfff, 0xfff))

  /** imx477_test_pattern_val: the register value of each test-pattern menu entry
      (disabled, colour bars, solid colour, grey colour bars, PN9). */
  const TestPatternVal: seq<u16> := [0, 2, 1, 3, 4]

  /** The order in which re-applying the handler calls the driver back: the
      registration order, without the link frequency, which has no callback,
      and the read-only pixel rate. */
  const ReplayOrder: seq<Control> := [
    VBlank, HBlank, Exposure, AnalogueGain, DigitalGain, HFlip, VFlip,
    TestPattern, TestPatternRed, TestPatternGreenR, TestPatternBlue, TestPatternGreenB
  ]

  /** Every registered control starts inside its range, and the test-pattern
      menu has one entry per register value. */
  lemma InitialCtrlsValid()
    ensures forall c :: InRange(Get(InitialCtrls, c))
    ensures InitialCtrls.testPattern.maximum == |TestPatternVal| - 1
  {
  }

  function Clamp(v: int, lo: int, hi: int): (r: int)
    requires lo <= hi
    ensures lo <= r <= hi
    ensures lo <= v <= hi ==> r == v
    ensures v < lo ==> r == lo
    ensures v > hi ==> r == hi
  {
    if v < lo then lo else if v > hi then hi else v
  }

  /** Changing a control's range: a range with its default outside, or a step
      that is not positive, is refused and nothing changes; otherwise the range
      and default are replaced and the current value is brought into the range. */
  function ModifyRange(c: IntCtrl, minimum: int, maximum: int, step: int, def: int): (r: IntCtrl)
    ensures minimum <= def <= maximum && step > 0 ==>
      r.minimum == minimum && r.maximum == maximum && r.step == step && r.def == def &&
      minimum <= r.val <= maximum &&
      (minimum <= c.val <= maximum ==> r.val == c.val)
    ensures !(minimum <= def <= maximum && step > 0) ==> r == c
  {
    if minimum <= def <= maximum && step > 0 then
      IntCtrl(minimum, maximum, step, def, Clamp(c.val, minimum, maximum))
    else c
  }

  /** The first step of setting a control: its new value is stored, and no
      other control changes. */
  function Store(s: Ctrls, c: Control, v: int): (r: Ctrls)
    ensures Get(r, c) == Get(s, c).(val := v)
    ensures forall d :: d != c ==> Get(r, d) == Get(s, d)
  {
    Put(s, c, Get(s, c).(val := v))
  }

  /** Storing the value a control already has changes nothing. */
  lemma StoreSame(s: Ctrls, c: Control)
    ensures Store(s, c, Get(s, c).val) == s
  {
    CtrlsExt(Store(s, c, Get(s, c).val), s);
  }

  /** The handler state after __v4l2_ctrl_modify_range on control `c`: no
      other control changes. */
  function SetRange(s: Ctrls, c: Control, minimum: int, maximum: int, step: int, def: int): (r: Ctrls)
    ensures Get(r, c) == ModifyRange(Get(s, c), minimum, maximum, step, def)
    ensures forall d :: d != c ==> Get(r, d) == Get(s, d)
  {
    Put(s, c, ModifyRange(Get(s, c), minimum, maximum, step, def))
  }

  /** imx477_adjust_exposure_range: the exposure range follows the frame length
      `height + vblank`, keeping the minimum and step, with the default at the
      smaller of the new maximum and the current exposure. */
  function AdjustExposure(s: Ctrls, height: int): (r: Ctrls)
  {
    var e := s.exposure;
    var maximum := height + s.vblank.val - EXPOSURE_OFFSET;
    var def := if maximum < e.val then maximum else e.val;
    s.(exposure := ModifyRange(e, e.minimum, maximum, e.step, def))
  }

  /** After a vblank change the exposure maximum is `height + vblank - 22` and
      the exposure becomes the smaller of that maximum and its old value; no
      other control changes. */
  lemma AdjustExposureEffect(s: Ctrls, height: int)
    requires s.exposure.step > 0
    requires s.exposure.minimum <= s.exposure.val
    requires s.exposure.minimum <= height + s.vblank.val - EXPOSURE_OFFSET
    ensures var r := AdjustExposure(s, height);
      r.exposure.maximum == height + s.vblank.val - EXPOSURE_OFFSET &&
      r.exposure.minimum == s.exposure.minimum && r.exposure.step == s.exposure.step &&
      r.exposure.val == (if s.exposure.val <= r.exposure.maximum then s.exposure.val else r.exposure.maximum) &&
      r.exposure.def == r.exposure.val &&
      r == s.(exposure := r.exposure)
  {
  }

  /** Adjusting twice for the same frame length changes nothing more. */
  lemma AdjustExposureIdempotent(s: Ctrls, height: int)
    ensures AdjustExposure(AdjustExposure(s, height), height) == AdjustExposure(s, height)
  {
  }
}
