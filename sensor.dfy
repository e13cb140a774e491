/** The IMX477 sensor device (struct imx477) and the driver operations that
    change it: control callbacks, frame-length programming, format selection,
    stream start and stop, and the power bookkeeping. Every register write
    goes through the bus log of module Bus. */
module Sensor {
  import opened Registers
  import opened Bus
  import opened Tables
  import opened Modes
  import opened Timing
  import opened Controls

  const REG_MODE_SELECT: u16 := 0x0100
  const MODE_STANDBY: u32 := 0
  const MODE_STREAMING: u32 := 1
  const REG_ORIENTATION: u16 := 0x0101
  const REG_FRAME_LENGTH: u16 := 0x0340
  const REG_LINE_LENGTH: u16 := 0x0342
  const LONG_EXP_SHIFT_REG: u16 := 0x3100
  const REG_EXPOSURE: u16 := 0x0202
  const REG_ANALOG_GAIN: u16 := 0x0204
  const REG_DIGITAL_GAIN: u16 := 0x020e
  const REG_TEST_PATTERN: u16 := 0x0600
  const REG_TEST_PATTERN_R: u16 := 0x0602
  const REG_TEST_PATTERN_GR: u16 := 0x0604
  const REG_TEST_PATTERN_B: u16 := 0x0606
  const REG_TEST_PATTERN_GB: u16 := 0x0608
  const REG_CHIP_ID: u16 := 0x0016
  const CHIP_ID: u32 := 0x0477

  /** Which pad format a format request is about. */
  datatype Whence = Try | Active

  /** The messages that write a register table one byte per entry, in order. */
  function TableMsgs(regs: seq<Reg>): (ms: seq<Msg>)
    ensures |ms| == |regs|
    ensures forall i :: 0 <= i < |regs| ==> ms[i] == Msg(regs[i].address, 1, regs[i].val)
  {
    seq(|regs|, i requires 0 <= i < |regs| => Msg(regs[i].address, 1, regs[i].val))
  }

  /** The two messages that program a frame length of `v` lines: the halved
      length into the 16-bit frame-length register, then the number of halvings
      into the long-exposure shift register. */
  function FrameLengthMsgs(v: nat): (ms: seq<Msg>)
    requires v < 0x1_0000_0000
    ensures |ms| == 2
  {
    ShiftForLimits(v);
    [Msg(REG_FRAME_LENGTH, 2, Shr(v, ShiftFor(v))), Msg(LONG_EXP_SHIFT_REG, 1, ShiftFor(v))]
  }

  /** The controls whose callback is one register write. */
  predicate WritesOneReg(c: Control)
  {
    c != VBlank && c != LinkFreq && c != PixelRate
  }

  /** The register write of imx477_set_ctrl for control `c`, given the stored
      control values and the current long-exposure shift. */
  function CtrlWrite(s: Ctrls, c: Control, mode: nat, shift: nat): (w: Msg)
    requires SaneCtrls(s) && mode < CfgNum && WritesOneReg(c)
    ensures w.len <= 2
  {
    match c
    case AnalogueGain => Msg(REG_ANALOG_GAIN, 2, U32(Get(s, c).val))
    case Exposure => Msg(REG_EXPOSURE, 2, Shr(Get(s, c).val, shift))
    case DigitalGain => Msg(REG_DIGITAL_GAIN, 2, U32(Get(s, c).val))
    case TestPattern => Msg(REG_TEST_PATTERN, 2, TestPatternVal[Get(s, c).val])
    case TestPatternRed => Msg(REG_TEST_PATTERN_R, 2, U32(Get(s, c).val))
    case TestPatternGreenR => Msg(REG_TEST_PATTERN_GR, 2, U32(Get(s, c).val))
    case TestPatternBlue => Msg(REG_TEST_PATTERN_B, 2, U32(Get(s, c).val))
    case TestPatternGreenB => Msg(REG_TEST_PATTERN_GB, 2, U32(Get(s, c).val))
    case HFlip => Msg(REG_ORIENTATION, 1, s.hflip.val + 2 * s.vflip.val)
    case VFlip => Msg(REG_ORIENTATION, 1, s.hflip.val + 2 * s.vflip.val)
    case HBlank => Msg(REG_LINE_LENGTH, 2, U32(SupportedModes[mode].width + s.hblank.val))
  }

  /** The messages imx477_set_ctrl sends for control `c`: the frame-length
      pair for vblank, none for the link frequency (registered without a
      callback) and the read-only pixel rate,
      and otherwise the control's one register write. */
  function CtrlMsgs(s: Ctrls, c: Control, mode: nat, shift: nat): seq<Msg>
    requires SaneCtrls(s) && mode < CfgNum
  {
    if c == VBlank then
      ModeTableFacts(mode);
      FrameLengthMsgs(SupportedModes[mode].height + s.vblank.val)
    else if c == LinkFreq || c == PixelRate then []
    else
      [CtrlWrite(s, c, mode, shift)]
  }

  /** The write that re-ranging exposure for `height` causes: when the new
      maximum lowers the exposure value, __v4l2_ctrl_modify_range calls the
      driver back for exposure, which writes the lowered value shifted by
      `shift`, the shift still in force; otherwise nothing is sent. */
  function ClampMsgs(s: Ctrls, height: int, shift: nat): seq<Msg>
    requires Bounded(s.exposure) && s.exposure.val < 0x1_0000_0000
  {
    var e := AdjustExposure(s, height).exposure;
    if e.val != s.exposure.val then
      assert e.val <= s.exposure.val;
      [Msg(REG_EXPOSURE, 2, Shr(e.val, shift))]
    else []
  }

  /** What imx477_set_ctrl sends before the control's own write once the
      framework has stored `v` for `c`: for vblank, the exposure write of the
      re-range; nothing for the other controls. */
  function PreMsgs(s: Ctrls, c: Control, v: int, mode: nat, shift: nat): seq<Msg>
    requires SaneCtrls(s) && mode < CfgNum
  {
    if c == VBlank then
      var t := Store(s, VBlank, v);
      assert Get(t, Exposure) == Get(s, Exposure);
      ClampMsgs(t, SupportedModes[mode].height, shift)
    else []
  }

  /** Control callbacks that only read control values send the same messages
      for two handler states whose values agree. */
  lemma CtrlMsgsSameValues(s: Ctrls, t: Ctrls, c: Control, mode: nat, shift: nat)
    requires SaneCtrls(s) && SaneCtrls(t) && mode < CfgNum
    requires forall d :: Get(s, d).val == Get(t, d).val
    ensures CtrlMsgs(s, c, mode, shift) == CtrlMsgs(t, c, mode, shift)
  {
    assert Get(s, HFlip).val == Get(t, HFlip).val && Get(s, VFlip).val == Get(t, VFlip).val;
    assert Get(s, c).val == Get(t, c).val;
  }

  /** The messages of each control of `cs`, in order. */
  function ReplayParts(s: Ctrls, cs: seq<Control>, mode: nat, shift: nat): (ps: seq<seq<Msg>>)
    requires SaneCtrls(s) && mode < CfgNum
    ensures |ps| == |cs|
  {
    seq(|cs|, k requires 0 <= k < |cs| => CtrlMsgs(s, cs[k], mode, shift))
  }

  /** The messages of re-applying the controls `cs` in order. */
  function ReplayMsgs(s: Ctrls, cs: seq<Control>, mode: nat, shift: nat): seq<Msg>
    requires SaneCtrls(s) && mode < CfgNum
  {
    Concat(ReplayParts(s, cs, mode, shift))
  }

  /** One step of a loop that sends `plan` one message at a time from log
      position `at`, with `before` the log when it started: after message `i`
      the log holds either the plan so far, or the whole attempt at the plan. */
  lemma SequencerStep(nak: set<nat>, at: nat, before: seq<Msg>, plan: seq<Msg>, i: nat, wire: seq<Msg>)
    requires i < |plan| && Delivered(nak, at, plan[..i])
    requires wire == before + plan[..i] + Attempt(nak, at + i, [plan[i]])
    ensures at + i in nak ==> wire == before + Attempt(nak, at, plan) && !Delivered(nak, at, plan)
    ensures at + i !in nak ==> wire == before + plan[..i + 1] && Delivered(nak, at, plan[..i + 1])
  {
    assert plan[..i] + [plan[i]] + plan[i + 1..] == plan;
    AttemptAfterPrefix(nak, at, plan[..i], [plan[i]], plan[i + 1..]);
    assert plan[..i + 1] == plan[..i] + [plan[i]];
  }

  function StreamOnMsg(): Msg { Msg(REG_MODE_SELECT, 1, MODE_STREAMING) }
  function StreamOffMsg(): Msg { Msg(REG_MODE_SELECT, 1, MODE_STANDBY) }

  /** The current mode's register table. */
  function ModeMsgs(mode: nat): seq<Msg>
    requires mode < CfgNum
  {
    TableMsgs(ModeRegs(SupportedModes[mode].regList))
  }

  /** What __imx477_start_streaming sends once the common settings are in:
      the mode table, every control re-applied, then the streaming bit. */
  function ModeStartMsgs(s: Ctrls, mode: nat, shift: nat): seq<Msg>
    requires SaneCtrls(s) && mode < CfgNum
  {
    ModeMsgs(mode) + (ReplayMsgs(s, ReplayOrder, mode, shift) + [StreamOnMsg()])
  }

  /** The whole stream-start sequence: `common`, the common settings still to
      send (none once they are written), then the rest. */
  function StartMsgs(common: seq<Msg>, s: Ctrls, mode: nat, shift: nat): seq<Msg>
    requires SaneCtrls(s) && mode < CfgNum
  {
    common + ModeStartMsgs(s, mode, shift)
  }

  /** The frame-length messages carry the halved length, which fits the
      2-byte register, and the least shift that makes it fit, which fits its
      1-byte register (so both reach the sensor whole, see BytesDecode); within
      the vblank range the driver sets, the shift is at most LONG_EXP_SHIFT_MAX. */
  lemma FrameLengthMsgsDecode(v: nat)
    requires v < 0x1_0000_0000
    ensures var ms := FrameLengthMsgs(v); var k := ms[1].val;
      ms[0].reg == REG_FRAME_LENGTH && ms[0].len == 2 &&
      ms[1].reg == LONG_EXP_SHIFT_REG && ms[1].len == 1 && k < Pow256(1) &&
      ms[0].val == Shr(v, k) <= FRAME_LENGTH_MAX < Pow256(2) &&
      (forall j :: 0 <= j < k ==> Shr(v, j) > FRAME_LENGTH_MAX) &&
      (v <= 128 * FRAME_LENGTH_MAX ==> k <= LONG_EXP_SHIFT_MAX)
  {
    var k := ShiftFor(v);
    ShiftForLimits(v);
    assert Pow256(1) == 0x100 && Pow256(2) == 0x1_0000;
    forall j | 0 <= j < k
      ensures Shr(v, j) > FRAME_LENGTH_MAX
    {
      ShiftForLeast(v, j);
    }
  }

  /** Within a consistent framing, the exposure register receives the exposure
      shifted by the long-exposure shift, which fits its 2 bytes. */
  lemma ExposureMsgExact(s: Ctrls, mode: nat)
    requires SaneCtrls(s) && mode < CfgNum
    requires s.exposure.maximum == SupportedModes[mode].height + s.vblank.val - EXPOSURE_OFFSET
    ensures var k := ShiftFor(SupportedModes[mode].height + s.vblank.val);
      var w := CtrlMsgs(s, Exposure, mode, k)[0];
      w.reg == REG_EXPOSURE && w.len == 2 &&
      w.val == Shr(s.exposure.val, k) <= FRAME_LENGTH_MAX < Pow256(2)
  {
    var fl := SupportedModes[mode].height + s.vblank.val;
    ExposureFits(s.exposure.val, fl);
    assert Pow256(2) == 0x1_0000;
  }

  /** Re-ranging exposure writes exactly when the exposure lies above the new
      maximum `height + vblank - 22`, and then it writes that maximum, shifted. */
  lemma ClampMsgsFacts(s: Ctrls, height: int, shift: nat)
    requires SaneCtrls(s) && 4 + EXPOSURE_OFFSET <= height
    ensures var maximum := height + s.vblank.val - EXPOSURE_OFFSET;
      ClampMsgs(s, height, shift) ==
        if s.exposure.val <= maximum then [] else [Msg(REG_EXPOSURE, 2, Shr(maximum, shift))]
  {
    AdjustExposureEffect(s, height);
  }

  /** The orientation register gets horizontal flip in bit 0 and vertical flip
      in bit 1, whichever of the two controls changed; the byte carries the
      value whole (see BytesDecode). */
  lemma OrientationMsg(s: Ctrls, c: Control, mode: nat, shift: nat)
    requires SaneCtrls(s) && mode < CfgNum && (c == HFlip || c == VFlip)
    ensures var ms := CtrlMsgs(s, c, mode, shift);
      |ms| == 1 && ms[0].reg == REG_ORIENTATION && ms[0].len == 1 && ms[0].val < Pow256(1) &&
      ms[0].val % 2 == s.hflip.val && ms[0].val / 2 == s.vflip.val
  {
    assert Pow256(1) == 0x100;
  }

  /** The line-length write keeps 16 bits of width plus hblank: it is exact
      while the sum fits. */
  lemma LineLengthMsg(s: Ctrls, mode: nat, shift: nat)
    requires SaneCtrls(s) && mode < CfgNum
    ensures var b := Bytes(CtrlMsgs(s, HBlank, mode, shift)[0]);
      var want := SupportedModes[mode].width + s.hblank.val;
      FromBigEndian(b[..2]) == REG_LINE_LENGTH &&
      ReadValue(b[2..]) == want % 0x1_0000 &&
      (want <= 0xffff ==> ReadValue(b[2..]) == want)
  {
    ModeTableFacts(mode);
    var want := SupportedModes[mode].width + s.hblank.val;
    var w := CtrlMsgs(s, HBlank, mode, shift)[0];
    assert w == Msg(REG_LINE_LENGTH, 2, want);
    assert Pow256(2) == 0x1_0000;
    BytesDecode(w);
  }

  /** The hblank range as imx477_set_framing_limits sets it: from the mode's
      own line length up to LINE_LENGTH_MAX, whatever the mode's width, so in
      no mode does every accepted hblank keep the line within LINE_LENGTH_MAX. */
  function HBlankRangeAsWritten(s: Ctrls, mode: nat): (r: Ctrls)
    requires mode < CfgNum
    ensures r.hblank.minimum == SupportedModes[mode].lineLengthPix - SupportedModes[mode].width
    ensures r.hblank.maximum == LINE_LENGTH_MAX && !LineFits(r, mode)
    ensures forall c :: c != HBlank ==> Get(r, c) == Get(s, c)
  {
    var m := SupportedModes[mode];
    SetRange(s, HBlank, m.lineLengthPix - m.width, LINE_LENGTH_MAX, 1, m.lineLengthPix - m.width)
  }

  /** With that range the line length wraps: in the 4056-wide mode the range
      accepts hblank 0xfff0, and the 2-byte line-length write it causes holds
      4040 (see BytesDecode), shorter than the active width. */
  lemma LineLengthWraps(s: Ctrls, shift: nat)
    requires SaneCtrls(s)
    ensures var t := HBlankRangeAsWritten(s, 0);
      Accepts(t, HBlank, LINE_LENGTH_MAX) && SaneCtrls(Store(t, HBlank, LINE_LENGTH_MAX)) &&
      var w := CtrlMsgs(Store(t, HBlank, LINE_LENGTH_MAX), HBlank, 0, shift)[0];
      w.reg == REG_LINE_LENGTH && w.len == 2 && w.val % Pow256(w.len) == 4040 < SupportedModes[0].width
  {
    var t := HBlankRangeAsWritten(s, 0);
    StoreSane(t, HBlank, LINE_LENGTH_MAX);
    assert Pow256(2) == 0x1_0000;
  }

  /** The line length of mode `mode` plus any hblank the range accepts stays
      within LINE_LENGTH_MAX. */
  predicate LineFits(s: Ctrls, mode: nat)
    requires mode < CfgNum
  {
    SupportedModes[mode].width + s.hblank.maximum <= LINE_LENGTH_MAX
  }

  /** Within such a range the line-length write carries width plus hblank
      whole: the register receives exactly the line length asked for. */
  lemma LineLengthExact(s: Ctrls, mode: nat, shift: nat)
    requires SaneCtrls(s) && mode < CfgNum && LineFits(s, mode)
    ensures var w := CtrlMsgs(s, HBlank, mode, shift)[0];
      w.reg == REG_LINE_LENGTH && w.len == 2 &&
      w.val == SupportedModes[mode].width + s.hblank.val <= LINE_LENGTH_MAX < Pow256(w.len)
  {
    assert Pow256(2) == 0x1_0000;
  }

  /** The controls fit mode `mode`: sane, with a vblank range whose frame
      lengths stay within 128 register maxima. */
  ghost predicate FitsMode(s: Ctrls, mode: nat)
  {
    mode < CfgNum && SaneCtrls(s) &&
    SupportedModes[mode].height + s.vblank.maximum <= 128 * FRAME_LENGTH_MAX
  }

  /** The exposure maximum and the long-exposure shift follow the frame length. */
  ghost predicate Consistent(s: Ctrls, mode: nat, shift: nat)
    requires FitsMode(s, mode)
  {
    var fl := SupportedModes[mode].height + s.vblank.val;
    s.exposure.maximum == fl - EXPOSURE_OFFSET && shift == ShiftFor(fl)
  }

  /** The control state once imx477_set_ctrl has run for the accepted value
      `v` of `c`: the value stored, and for vblank the exposure re-ranged. */
  function UpdateCtrls(s: Ctrls, c: Control, v: int, height: int): Ctrls
  {
    if c == VBlank then AdjustExposure(Store(s, c, v), height) else Store(s, c, v)
  }

  /** Storing an accepted value keeps the controls sane. */
  lemma StoreSane(s: Ctrls, c: Control, v: int)
    requires SaneCtrls(s) && Accepts(s, c, v)
    ensures SaneCtrls(Store(s, c, v))
  {
    var t := Store(s, c, v);
  }

  /** Setting an accepted value other than vblank keeps the controls fitting
      the mode and leaves the framing relation and the hblank range as they
      were. */
  lemma UpdateOtherFits(s: Ctrls, c: Control, v: int, mode: nat, shift: nat)
    requires FitsMode(s, mode) && Accepts(s, c, v) && c != VBlank
    ensures FitsMode(UpdateCtrls(s, c, v, SupportedModes[mode].height), mode)
    ensures Consistent(s, mode, shift) ==>
      Consistent(UpdateCtrls(s, c, v, SupportedModes[mode].height), mode, shift)
    ensures LineFits(s, mode) ==> LineFits(UpdateCtrls(s, c, v, SupportedModes[mode].height), mode)
  {
    StoreSane(s, c, v);
  }

  /** Setting an accepted vblank keeps the controls fitting the mode, and the
      exposure range and the shift follow the new frame length. */
  lemma UpdateVBlankFits(s: Ctrls, v: int, mode: nat)
    requires FitsMode(s, mode) && Accepts(s, VBlank, v)
    ensures FitsMode(UpdateCtrls(s, VBlank, v, SupportedModes[mode].height), mode)
    ensures Consistent(UpdateCtrls(s, VBlank, v, SupportedModes[mode].height), mode,
                       ShiftFor(SupportedModes[mode].height + v))
    ensures LineFits(s, mode) ==> LineFits(UpdateCtrls(s, VBlank, v, SupportedModes[mode].height), mode)
  {
    ModeTableFacts(mode);
    var h := SupportedModes[mode].height;
    var t := Store(s, VBlank, v);
    StoreSane(s, VBlank, v);
    var u := AdjustExposure(t, h);
    AdjustExposureEffect(t, h);
  }

  /** Re-applying a consistent framing's exposure range only resets the
      exposure default to its value: every value stays, and with them the
      framing relation and every control's messages. */
  lemma AdjustKeepsValues(s: Ctrls, mode: nat, shift: nat)
    requires FitsMode(s, mode) && Consistent(s, mode, shift)
    ensures var t := AdjustExposure(s, SupportedModes[mode].height);
      FitsMode(t, mode) && Consistent(t, mode, shift) &&
      (forall d :: Get(t, d).val == Get(s, d).val) &&
      (forall d :: CtrlMsgs(t, d, mode, shift) == CtrlMsgs(s, d, mode, shift)) &&
      AdjustExposure(t, SupportedModes[mode].height) == t
  {
    ModeTableFacts(mode);
    var h := SupportedModes[mode].height;
    var t := AdjustExposure(s, h);
    AdjustExposureEffect(s, h);
    AdjustExposureIdempotent(s, h);
    forall d: Control
      ensures Get(t, d).val == Get(s, d).val
    {
      if d != Exposure {
        assert Get(t, d) == Get(s, d);
      }
    }
    forall d: Control
      ensures CtrlMsgs(t, d, mode, shift) == CtrlMsgs(s, d, mode, shift)
    {
      CtrlMsgsSameValues(t, s, d, mode, shift);
    }
  }

  /** The replay starts with vblank and never calls back for the link
      frequency (no callback) or the read-only pixel rate. */
  lemma ReplayOrderFacts(i: nat)
    requires i < |ReplayOrder|
    ensures ReplayOrder[i] != LinkFreq && ReplayOrder[i] != PixelRate
    ensures ReplayOrder[i] == VBlank <==> i == 0
  {
  }

  /** Vblank, the first control of the replay, called back with its own value
      on a consistent state: the framework accepts it, the callback only
      re-ranges exposure, and the shift it computes is the current one. */
  lemma ReplayVBlank(s0: Ctrls, mode: nat, shift: nat)
    requires FitsMode(s0, mode) && Consistent(s0, mode, shift)
    ensures var h := SupportedModes[mode].height; var v := Get(s0, VBlank).val;
      Accepts(s0, VBlank, v) && UpdateCtrls(s0, VBlank, v, h) == AdjustExposure(s0, h) &&
      ShiftFor(h + v) == shift
  {
    StoreSame(s0, VBlank);
  }

  /** Any later control of the replay, called back with its own value on the
      re-ranged state: the framework accepts it and the callback changes no
      control. */
  lemma ReplayOther(s0: Ctrls, mode: nat, shift: nat, c: Control)
    requires FitsMode(s0, mode) && Consistent(s0, mode, shift)
    requires c != VBlank && c != LinkFreq && c != PixelRate
    ensures var h := SupportedModes[mode].height; var s1 := AdjustExposure(s0, h);
      Accepts(s1, c, Get(s1, c).val) && UpdateCtrls(s1, c, Get(s1, c).val, h) == s1
  {
    AdjustKeepsValues(s0, mode, shift);
    StoreSame(AdjustExposure(s0, SupportedModes[mode].height), c);
  }

  /** The frame lengths of the fastest and of the default frame interval of
      mode `mode` (imx477_get_frame_length). */
  function MinFrameLength(mode: nat): (fl: nat)
    requires mode < CfgNum
    ensures SupportedModes[mode].height <= fl <= FRAME_LENGTH_MAX
  {
    ModeFrameLengths(mode);
    ModeTableFacts(mode);
    GetFrameLength(SupportedModes[mode], SupportedModes[mode].maxFps)
  }

  function DefaultFrameLength(mode: nat): (fl: nat)
    requires mode < CfgNum
    ensures SupportedModes[mode].height <= fl <= FRAME_LENGTH_MAX
    ensures fl == MinFrameLength(mode)
  {
    ModeFrameLengths(mode);
    ModeTableFacts(mode);
    GetFrameLength(SupportedModes[mode], SupportedModes[mode].timePerFrameDefault)
  }

  /** The vblank range of imx477_set_framing_limits: from the fastest frame
      interval up to 128 register maxima, defaulting to the default interval. */
  function VBlankRange(s: Ctrls, mode: nat): Ctrls
    requires mode < CfgNum
  {
    var h := SupportedModes[mode].height;
    SetRange(s, VBlank, MinFrameLength(mode) - h, 128 * FRAME_LENGTH_MAX - h, 1, DefaultFrameLength(mode) - h)
  }

  /** The hblank range of imx477_set_framing_limits, corrected: from the
      mode's own line length up to a line length of LINE_LENGTH_MAX, so that
      width plus hblank never leaves the 16-bit line-length register. */
  function HBlankRange(s: Ctrls, mode: nat): Ctrls
    requires mode < CfgNum
  {
    var m := SupportedModes[mode];
    SetRange(s, HBlank, m.lineLengthPix - m.width, LINE_LENGTH_MAX - m.width, 1, m.lineLengthPix - m.width)
  }

  /** The vblank half of imx477_set_framing_limits: the vblank range set and
      vblank moved to its default, re-ranging exposure. */
  function VBlankFramed(s: Ctrls, mode: nat): Ctrls
    requires mode < CfgNum
  {
    var h := SupportedModes[mode].height;
    UpdateCtrls(VBlankRange(s, mode), VBlank, DefaultFrameLength(mode) - h, h)
  }

  /** The hblank half of imx477_set_framing_limits: the hblank range set and
      hblank moved to its minimum. */
  function HBlankFramed(s: Ctrls, mode: nat): Ctrls
    requires mode < CfgNum
  {
    var m := SupportedModes[mode];
    UpdateCtrls(HBlankRange(s, mode), HBlank, m.lineLengthPix - m.width, m.height)
  }

  /** The control state imx477_set_framing_limits leaves. */
  function FramedCtrls(s: Ctrls, mode: nat): Ctrls
    requires mode < CfgNum
  {
    HBlankFramed(VBlankFramed(s, mode), mode)
  }

  /** The exposure write of imx477_set_framing_limits on controls `s`: moving
      vblank to the default of its new range re-ranges exposure, with the
      shift just reset to 0. */
  function FramingClampMsgs(s: Ctrls, mode: nat): seq<Msg>
    requires SaneCtrls(s) && mode < CfgNum
  {
    VBlankRangeFits(s, mode);
    PreMsgs(VBlankRange(s, mode), VBlank, DefaultFrameLength(mode) - SupportedModes[mode].height, mode, 0)
  }

  /** What imx477_set_framing_limits sends from log position `at` when its
      exposure re-range sends `pre` (FramingClampMsgs of the controls it
      starts from): `pre`, the frame-length pair of the default frame length,
      and then, whatever became of it, the mode's line length. */
  ghost function FramingWire(nak: set<nat>, at: nat, pre: seq<Msg>, mode: nat): seq<Msg>
    requires mode < CfgNum
  {
    pre + FramingWrites(nak, at + |pre|, mode)
  }

  /** The frame-length pair of the default frame length sent from log
      position `at`, and then, whatever became of it, the mode's line length. */
  ghost function FramingWrites(nak: set<nat>, at: nat, mode: nat): seq<Msg>
    requires mode < CfgNum
  {
    var first := Attempt(nak, at, FrameLengthMsgs(DefaultFrameLength(mode)));
    first + Attempt(nak, at + |first|, [Msg(REG_LINE_LENGTH, 2, SupportedModes[mode].lineLengthPix)])
  }

  /** imx477_set_framing_limits writes the exposure exactly when it lies
      above the default frame length less 22, and then writes that bound
      unshifted. */
  lemma FramingClampMsgsFacts(s: Ctrls, mode: nat)
    requires SaneCtrls(s) && mode < CfgNum
    ensures var bound := DefaultFrameLength(mode) - EXPOSURE_OFFSET;
      FramingClampMsgs(s, mode) ==
        if s.exposure.val <= bound then [] else [Msg(REG_EXPOSURE, 2, bound)]
  {
    var h := SupportedModes[mode].height;
    var def := DefaultFrameLength(mode);
    ModeTableFacts(mode);
    VBlankRangeFits(s, mode);
    var t := Store(VBlankRange(s, mode), VBlank, def - h);
    assert Get(t, Exposure) == Get(s, Exposure);
    StoreSane(VBlankRange(s, mode), VBlank, def - h);
    ClampMsgsFacts(t, h, 0);
    assert Shr(def - EXPOSURE_OFFSET, 0) == def - EXPOSURE_OFFSET;
  }

  /** The registered exposure, 0x640, fits the default frame of modes 0 and 1,
      so setting up their framing writes no exposure; mode 2's default frame
      of 1233 lines lowers it to 1211. */
  lemma InitialFramingClamp(mode: nat)
    requires mode < CfgNum
    ensures FramingClampMsgs(InitialCtrls, mode) == if mode == 2 then [Msg(REG_EXPOSURE, 2, 1211)] else []
  {
    InitialCtrlsSane();
    FramingClampMsgsFacts(InitialCtrls, mode);
    ModeFrameLengths(mode);
    assert InitialCtrls.exposure.val == 0x640;
  }

  /** What imx477_set_framing_limits leaves, whatever the controls were: the
      vblank range of the mode with vblank at the default frame length, the
      hblank range of the mode with hblank at the mode's line length, the
      exposure range and the shift following the default frame length, and
      every other control as it was. */
  lemma FramedCtrlsFacts(s: Ctrls, mode: nat)
    requires SaneCtrls(s) && mode < CfgNum
    ensures var t := FramedCtrls(s, mode); var m := SupportedModes[mode];
      var def := DefaultFrameLength(mode);
      FitsMode(t, mode) && Consistent(t, mode, ShiftFor(def)) &&
      t.vblank == IntCtrl(MinFrameLength(mode) - m.height, 128 * FRAME_LENGTH_MAX - m.height, 1,
                          def - m.height, def - m.height) &&
      t.hblank == IntCtrl(m.lineLengthPix - m.width, LINE_LENGTH_MAX - m.width, 1,
                          m.lineLengthPix - m.width, m.lineLengthPix - m.width) &&
      LineFits(t, mode) &&
      t.exposure.maximum == def - EXPOSURE_OFFSET &&
      t == s.(vblank := t.vblank, hblank := t.hblank, exposure := t.exposure)
  {
    var m := SupportedModes[mode];
    var def := DefaultFrameLength(mode);
    ModeTableFacts(mode);
    var s1 := VBlankRange(s, mode);
    VBlankRangeFits(s, mode);
    var s2 := VBlankFramed(s, mode);
    UpdateVBlankFits(s1, def - m.height, mode);
    var s3 := HBlankRange(s2, mode);
    HBlankRangeFits(s2, mode, ShiftFor(def));
    UpdateOtherFits(s3, HBlank, m.lineLengthPix - m.width, mode, ShiftFor(def));
  }

  /** Moving vblank to the default of its new range programs the default
      frame length. */
  lemma VBlankDefaultMsgs(s: Ctrls, mode: nat, shift: nat)
    requires SaneCtrls(s) && mode < CfgNum
    ensures var t := VBlankFramed(s, mode);
      FitsMode(t, mode) && CtrlMsgs(t, VBlank, mode, shift) == FrameLengthMsgs(DefaultFrameLength(mode))
  {
    var h := SupportedModes[mode].height;
    VBlankRangeFits(s, mode);
    UpdateVBlankFits(VBlankRange(s, mode), DefaultFrameLength(mode) - h, mode);
  }

  /** The log after the two halves of imx477_set_framing_limits. */
  lemma FramingWireSplit(nak: set<nat>, w0: seq<Msg>, w1: seq<Msg>, wire: seq<Msg>, pre: seq<Msg>, mode: nat)
    requires mode < CfgNum
    requires w1 == w0 + pre + Attempt(nak, |w0| + |pre|, FrameLengthMsgs(DefaultFrameLength(mode)))
    requires wire == w1 + Attempt(nak, |w1|, [Msg(REG_LINE_LENGTH, 2, SupportedModes[mode].lineLengthPix)])
    ensures wire == w0 + FramingWire(nak, |w0|, pre, mode)
  {
    var first := Attempt(nak, |w0| + |pre|, FrameLengthMsgs(DefaultFrameLength(mode)));
    var second := Attempt(nak, |w1|, [Msg(REG_LINE_LENGTH, 2, SupportedModes[mode].lineLengthPix)]);
    assert FramingWrites(nak, |w0| + |pre|, mode) == first + second;
    AppendAssoc(w0, pre, first);
    AppendAssoc(w0 + pre, first, second);
    AppendAssoc(w0, pre, first + second);
  }

  /** The new vblank range fits the mode, whatever the controls were before,
      and accepts its default. */
  lemma VBlankRangeFits(s: Ctrls, mode: nat)
    requires SaneCtrls(s) && mode < CfgNum
    ensures var t := VBlankRange(s, mode); var h := SupportedModes[mode].height;
      FitsMode(t, mode) && Accepts(t, VBlank, DefaultFrameLength(mode) - h) &&
      t.vblank.minimum == MinFrameLength(mode) - h &&
      t.vblank.maximum == 128 * FRAME_LENGTH_MAX - h &&
      t.vblank.step == 1 && t.vblank.def == DefaultFrameLength(mode) - h
  {
    ModeTableFacts(mode);
    var t := VBlankRange(s, mode);
  }

  /** The new hblank range keeps the controls fitting the mode and the framing
      relation, and accepts its minimum. */
  lemma HBlankRangeFits(s: Ctrls, mode: nat, shift: nat)
    requires FitsMode(s, mode) && Consistent(s, mode, shift)
    ensures var t := HBlankRange(s, mode); var m := SupportedModes[mode];
      FitsMode(t, mode) && Consistent(t, mode, shift) &&
      Accepts(t, HBlank, m.lineLengthPix - m.width) &&
      t.hblank.minimum == m.lineLengthPix - m.width && t.hblank.maximum == LINE_LENGTH_MAX - m.width &&
      LineFits(t, mode) &&
      t.hblank.step == 1 && t.hblank.def == m.lineLengthPix - m.width
  {
    ModeTableFacts(mode);
    var t := HBlankRange(s, mode);
  }

  /** imx477_identify_module's verdict on the chip-id read: the read error,
      -EIO for another id, 0 for the expected one. */
  function IdentifyModule(read: ReadResult, expected: u32): (ret: int)
    requires read.ReadErr? ==> read.code < 0
    ensures ret == 0 <==> read.ReadOk? && read.value == expected
    ensures read.ReadErr? ==> ret == read.code
    ensures read.ReadOk? && read.value != expected ==> ret == -EIO
  {
    if read.ReadErr? then read.code
    else if read.value != expected then -EIO
    else 0
  }

  /** A chip-id read that went through accepts exactly the sensor whose id
      register holds CHIP_ID. */
  lemma IdentifyChip(reply: seq<u8>)
    requires |reply| == 2
    ensures IdentifyModule(ReadReg(2, true, reply), CHIP_ID) == 0 <==> reply == [0x04, 0x77]
    ensures IdentifyModule(ReadReg(2, false, reply), CHIP_ID) == -EIO
  {
    if FromBigEndian(reply) == CHIP_ID {
      FromBigEndianRoundTrip(reply);
      assert BigEndian(0x0477, 2) == [0x04, 0x77];
    }
    if reply == [0x04, 0x77] {
      assert reply[..1] == [0x04] && reply[..1][..0] == [];
      assert FromBigEndian(reply[..1]) == 0x04;
    }
  }

  /** The table writes that precede the control replay on stream start: the
      common settings still to send, then the mode table. */
  function SetupMsgs(common: seq<Msg>, mode: nat): seq<Msg>
    requires mode < CfgNum
  {
    common + ModeMsgs(mode)
  }

  /** Stream start sends, in order, the common tables only when they are not
      yet written, the mode table, the replayed controls, and last the
      streaming bit; once the common tables are written, a start sends the
      same minus them. */
  lemma StartMsgsOrder(common: seq<Msg>, s: Ctrls, mode: nat, shift: nat)
    requires SaneCtrls(s) && mode < CfgNum
    ensures StartMsgs(common, s, mode, shift) ==
      SetupMsgs(common, mode) + ReplayMsgs(s, ReplayOrder, mode, shift) + [StreamOnMsg()]
    ensures StartMsgs(common, s, mode, shift) == common + StartMsgs([], s, mode, shift)
  {
    var m := ModeMsgs(mode);
    var r := ReplayMsgs(s, ReplayOrder, mode, shift);
    var on := [StreamOnMsg()];
    AppendAssoc(m, r, on);
    AppendAssoc(common, m, r + on);
    AppendAssoc(common + m, r, on);
    assert [] + (m + (r + on)) == m + (r + on);
  }

  /** The controls as registered satisfy what the driver relies on. */
  lemma InitialCtrlsSane()
    ensures SaneCtrls(InitialCtrls)
  {
  }

  /** The reply of imx477_set_fmt to a try request as written: the format
      of the best-fit mode `best` is copied into the request and then
      overwritten by the stored try format `stored`, which stays as it was:
      the reply is the best fit only when that was already stored. */
  function TryReplyAsWritten(stored: MbusFormat, best: nat): (r: MbusFormat)
    requires best < CfgNum
    ensures r == ModeFormat(best) <==> stored == ModeFormat(best)
  {
    stored
  }

  /** Right after imx477_open, a try request for 1920x1080 selects mode 2,
      but as written it is answered with mode 0's 4056x3040 and the stored
      try format does not change; the corrected SetFmt reports and stores
      mode 2's format. */
  lemma TryReplyIgnoresRequest()
    ensures IsBestFit(2, MEDIA_BUS_FMT_SRGGB10_1X10, 1920, 1080)
    ensures TryReplyAsWritten(ModeFormat(0), 2) == ModeFormat(0)
    ensures ModeFormat(0).width == 4056 && ModeFormat(2).width == 1920
  {
    assert ResoDist(SupportedModes[2], 1920, 1080) == 0;
  }

  /** A C `bool` promoted to `int` for a comparison. */
  function IntOf(b: bool): int
  {
    if b then 1 else 0
  }

  /** What holds of the device between operations: the controls fit the
      current mode, the exposure range and the long-exposure shift follow the
      frame length, and the hblank range keeps the line length within its
      register. */
  ghost predicate DeviceValid(s: Ctrls, mode: nat, shift: nat)
  {
    FitsMode(s, mode) && Consistent(s, mode, shift) && LineFits(s, mode)
  }

  class Imx477 {
    /** Every write message sent to the sensor, in order. */
    var wire: seq<Msg>
    /** The log positions at which the sensor does not acknowledge a write. */
    const nak: set<nat>
    /** Index of the current mode in SupportedModes. */
    var curMode: nat
    var streaming: bool
    var powerOn: bool
    var commonRegsWritten: bool
    var longExpShift: nat
    /** Whether the flip controls are grabbed (cannot change while streaming). */
    var flipsGrabbed: bool
    /** The control handler's controls. */
    var ctrls: Ctrls
    /** The try format of the image pad. */
    var tryFmt: MbusFormat
    /** The tables sent once per power cycle: mode_common_regs, and the extra
        registers of the device's compatible data. */
    const commonRegs: seq<Reg>
    const extraRegs: seq<Reg>

    /** The common settings: the common table, then the extra one. */
    function CommonMsgs(): seq<Msg>
    {
      TableMsgs(commonRegs) + TableMsgs(extraRegs)
    }

    /** The common settings a stream start still has to send: none once they
        are written. */
    function PendingCommon(): seq<Msg>
      reads this`commonRegsWritten
    {
      if commonRegsWritten then [] else CommonMsgs()
    }

    /** The controls are sane and the vblank range fits the current mode. */
    ghost predicate Ready()
      reads this`curMode, this`ctrls
    {
      FitsMode(ctrls, curMode)
    }

    /** The exposure range and the long-exposure shift follow the current frame length. */
    ghost predicate FramingConsistent()
      reads this`curMode, this`ctrls, this`longExpShift
      requires Ready()
    {
      Consistent(ctrls, curMode, longExpShift)
    }

    /** The hblank range keeps the line length within its register. */
    ghost predicate LineLengthFits()
      reads this`curMode, this`ctrls
      requires Ready()
    {
      LineFits(ctrls, curMode)
    }

    ghost predicate Valid()
      reads this`curMode, this`ctrls, this`longExpShift
    {
      DeviceValid(ctrls, curMode, longExpShift)
    }

    /** imx477_get_fmt. */
    function GetFmt(which: Whence): (f: MbusFormat)
      reads this`curMode, this`tryFmt
      requires curMode < CfgNum
      ensures which.Try? ==> f == tryFmt
      ensures which.Active? ==>
        f.width == SupportedModes[curMode].width && f.height == SupportedModes[curMode].height &&
        f.code == SupportedModes[curMode].busFmt && f.field == V4L2_FIELD_NONE
    {
      if which.Try? then tryFmt else ModeFormat(curMode)
    }

    /** imx477_write_reg: one message of `len + 2` bytes; -EINVAL without
        sending anything when `len > 4`. */
    method WriteReg(reg: u16, len: nat, val: u32) returns (ret: int)
      modifies this`wire
      ensures len > 4 ==> ret == -EINVAL && wire == old(wire)
      ensures len <= 4 ==>
        wire == old(wire) + Attempt(nak, |old(wire)|, [Msg(reg, len, val)]) &&
        ret == Status(nak, |old(wire)|, [Msg(reg, len, val)])
    {
      if len > 4 {
        return -EINVAL;
      }
      ret := if |wire| in nak then -EIO else 0;
      wire := wire + [Msg(reg, len, val)];
    }

    /** imx477_write_regs: one 1-byte write per entry, in order, giving up at
        the first failure. */
    method WriteRegs(regs: seq<Reg>) returns (ret: int)
      modifies this`wire
      ensures wire == old(wire) + Attempt(nak, |old(wire)|, TableMsgs(regs))
      ensures ret == Status(nak, |old(wire)|, TableMsgs(regs))
    {
      ghost var at := |wire|;
      ghost var plan := TableMsgs(regs);
      var i := 0;
      while i < |regs|
        invariant 0 <= i <= |regs|
        invariant wire == old(wire) + plan[..i]
        invariant Delivered(nak, at, plan[..i])
      {
        ret := WriteReg(regs[i].address, 1, regs[i].val);
        SequencerStep(nak, at, old(wire), plan, i, wire);
        if ret != 0 {
          return;
        }
        i := i + 1;
      }
      assert plan[..i] == plan;
      AttemptStopsAtFailure(nak, at, plan);
      ret := 0;
    }

    /** imx477_set_frame_length: halve the frame length until it fits the
        register, counting the halvings in long_exp_shift, then write the
        halved length and the shift. */
    method SetFrameLength(v: nat) returns (ret: int)
      requires v < 0x1_0000_0000
      modifies this`wire, this`longExpShift
      ensures longExpShift == ShiftFor(v)
      ensures wire == old(wire) + Attempt(nak, |old(wire)|, FrameLengthMsgs(v))
      ensures ret == Status(nak, |old(wire)|, FrameLengthMsgs(v))
    {
      ghost var at := |wire|;
      longExpShift := 0;
      var val := v;
      while val > FRAME_LENGTH_MAX
        invariant wire == old(wire)
        invariant val == Shr(v, longExpShift)
        invariant forall j :: 0 <= j < longExpShift ==> Shr(v, j) > FRAME_LENGTH_MAX
        decreases val
      {
        ShrHalve(v, longExpShift);
        longExpShift := longExpShift + 1;
        val := val / 2;
      }
      ShiftForExact(v, longExpShift);
      ShiftForLimits(v);
      ghost var plan := FrameLengthMsgs(v);
      assert plan[0] == Msg(REG_FRAME_LENGTH, 2, val);
      assert plan[1] == Msg(LONG_EXP_SHIFT_REG, 1, longExpShift);
      ret := WriteReg(REG_FRAME_LENGTH, 2, val);
      assert wire == old(wire) + plan[..0] + Attempt(nak, at, [plan[0]]);
      SequencerStep(nak, at, old(wire), plan, 0, wire);
      if ret != 0 {
        return;
      }
      ret := WriteReg(LONG_EXP_SHIFT_REG, 1, longExpShift);
      SequencerStep(nak, at, old(wire), plan, 1, wire);
      if ret == 0 {
        assert plan[..2] == plan;
        AttemptStopsAtFailure(nak, at, plan);
      }
    }

    /** imx477_set_ctrl, entered after the control framework has stored the
        accepted value `v`: a vblank change first re-ranges exposure, which
        may write the exposure; then the control's register is written. The
        link frequency and the pixel rate, which the switch does not handle,
        are refused. */
    method SetCtrl(c: Control, v: int) returns (ret: int)
      requires Ready() && Accepts(ctrls, c, v)
      modifies this`wire, this`ctrls, this`longExpShift
      ensures Ready()
      ensures c == VBlank || old(FramingConsistent()) ==> FramingConsistent()
      ensures old(LineLengthFits()) ==> LineLengthFits()
      ensures ctrls == UpdateCtrls(old(ctrls), c, v, SupportedModes[curMode].height)
      ensures longExpShift == if c == VBlank then ShiftFor(SupportedModes[curMode].height + v) else old(longExpShift)
      ensures var pre := PreMsgs(old(ctrls), c, v, curMode, old(longExpShift));
        wire == old(wire) + pre + Attempt(nak, |old(wire)| + |pre|, CtrlMsgs(ctrls, c, curMode, longExpShift)) &&
        ret == if c == LinkFreq || c == PixelRate then -EINVAL
               else Status(nak, |old(wire)| + |pre|, CtrlMsgs(ctrls, c, curMode, longExpShift))
    {
      ghost var pre := PreMsgs(ctrls, c, v, curMode, longExpShift);
      StoreSane(ctrls, c, v);
      if c == VBlank {
        UpdateVBlankFits(ctrls, v, curMode);
        ctrls := Store(ctrls, c, v);
        AdjustExposureRange();
        assert wire == old(wire) + pre;
        ret := WriteCtrl(c);
      } else {
        UpdateOtherFits(ctrls, c, v, curMode, longExpShift);
        ctrls := Store(ctrls, c, v);
        assert pre == [] && wire == old(wire) + pre;
        ret := WriteCtrl(c);
      }
    }

    /** imx477_adjust_exposure_range: the exposure range follows the current
        frame length. When that lowers the exposure value, the framework calls
        the driver back for exposure, and its write's result is not looked at. */
    method AdjustExposureRange()
      requires SaneCtrls(ctrls) && curMode < CfgNum
      modifies this`wire, this`ctrls
      ensures ctrls == AdjustExposure(old(ctrls), SupportedModes[curMode].height)
      ensures wire == old(wire) + ClampMsgs(old(ctrls), SupportedModes[curMode].height, longExpShift)
    {
      var before := ctrls.exposure.val;
      ctrls := AdjustExposure(ctrls, SupportedModes[curMode].height);
      if ctrls.exposure.val != before {
        assert ctrls.exposure.val <= before;
        var m := Msg(REG_EXPOSURE, 2, Shr(ctrls.exposure.val, longExpShift));
        var _ := WriteReg(m.reg, m.len, m.val);
        assert Attempt(nak, |old(wire)|, [m]) == [m];
      }
    }

    /** The register write of imx477_set_ctrl for control `c`, from the stored
        control values. */
    method WriteCtrl(c: Control) returns (ret: int)
      requires Ready()
      modifies this`wire, this`longExpShift
      ensures longExpShift == if c == VBlank then ShiftFor(SupportedModes[curMode].height + ctrls.vblank.val)
                              else old(longExpShift)
      ensures wire == old(wire) + Attempt(nak, |old(wire)|, CtrlMsgs(ctrls, c, curMode, longExpShift))
      ensures ret == if c == LinkFreq || c == PixelRate then -EINVAL
                     else Status(nak, |old(wire)|, CtrlMsgs(ctrls, c, curMode, longExpShift))
    {
      if c == VBlank {
        ModeTableFacts(curMode);
        ret := SetFrameLength(SupportedModes[curMode].height + ctrls.vblank.val);
      } else if c == LinkFreq || c == PixelRate {
        ret := -EINVAL;
      } else {
        var w := CtrlWrite(ctrls, c, curMode, longExpShift);
        ret := WriteReg(w.reg, w.len, w.val);
      }
    }

    /** __v4l2_ctrl_handler_setup: the callback of every writable control runs
        with its current value, in registration order, until one fails. */
    method HandlerSetup() returns (ret: int)
      requires Valid()
      modifies this`wire, this`ctrls, this`longExpShift
      ensures Valid()
      ensures ctrls == AdjustExposure(old(ctrls), SupportedModes[curMode].height)
      ensures longExpShift == old(longExpShift)
      ensures wire == old(wire) + Attempt(nak, |old(wire)|, ReplayMsgs(old(ctrls), ReplayOrder, curMode, longExpShift))
      ensures ret == Status(nak, |old(wire)|, ReplayMsgs(old(ctrls), ReplayOrder, curMode, longExpShift))
    {
      ghost var s0 := ctrls;
      ghost var s1 := AdjustExposure(s0, SupportedModes[curMode].height);
      ghost var parts := ReplayParts(s0, ReplayOrder, curMode, longExpShift);
      ghost var at := |wire|;
      ret := 0;
      var i := 0;
      while i < |ReplayOrder| && ret == 0
        invariant 0 <= i <= |ReplayOrder|
        invariant longExpShift == old(longExpShift)
        invariant i == 0 ==> ctrls == s0 && ret == 0
        invariant i > 0 ==> ctrls == s1
        invariant Valid()
        invariant ret == 0 ==> wire == old(wire) + Concat(parts[..i]) && Delivered(nak, at, Concat(parts[..i]))
        invariant ret != 0 ==> wire == old(wire) + Attempt(nak, at, Concat(parts)) && ret == Status(nak, at, Concat(parts))
      {
        var c := ReplayOrder[i];
        ReplayOrderFacts(i);
        ghost var mid := wire;
        ret := ReplayOne(c, s0, i == 0, parts[i]);
        ConcatStep(nak, old(wire), mid, parts, i, wire, ret);
        i := i + 1;
      }
      if ret == 0 {
        assert parts[..i] == parts;
        AttemptStopsAtFailure(nak, at, Concat(parts));
      }
    }

    /** The framework calling control `c` back with its current value during
        the replay: on the consistent state `s0` for vblank, which comes first,
        and on `s0` with its exposure re-ranged for the others. The state
        afterwards is the re-ranged one, the shift is kept, and what is sent
        is `sent`, the messages of `c` on `s0`. */
    method ReplayOne(c: Control, ghost s0: Ctrls, ghost first: bool, ghost sent: seq<Msg>) returns (ret: int)
      requires FitsMode(s0, curMode) && Consistent(s0, curMode, longExpShift) && LineFits(s0, curMode)
      requires c != LinkFreq && c != PixelRate && (c == VBlank <==> first)
      requires ctrls == if first then s0 else AdjustExposure(s0, SupportedModes[curMode].height)
      requires sent == CtrlMsgs(s0, c, curMode, longExpShift)
      modifies this`wire, this`ctrls, this`longExpShift
      ensures Valid()
      ensures ctrls == AdjustExposure(s0, SupportedModes[curMode].height)
      ensures longExpShift == old(longExpShift)
      ensures wire == old(wire) + Attempt(nak, |old(wire)|, sent)
      ensures ret == Status(nak, |old(wire)|, sent)
    {
      AdjustKeepsValues(s0, curMode, longExpShift);
      if first {
        ReplayVBlank(s0, curMode, longExpShift);
        StoreSame(s0, VBlank);
        assert Get(AdjustExposure(s0, SupportedModes[curMode].height), Exposure).val == Get(s0, Exposure).val;
        assert PreMsgs(s0, VBlank, Get(s0, VBlank).val, curMode, longExpShift) == [];
      } else {
        ReplayOther(s0, curMode, longExpShift, c);
      }
      ret := SetCtrl(c, Get(ctrls, c).val);
    }

    /** imx477_set_framing_limits: the vblank and hblank ranges of the current
        mode, with vblank at its default and hblank at its minimum. The
        callbacks' results are not checked, so the line length is written even
        when the frame length was not. */
    method SetFramingLimits()
      requires SaneCtrls(ctrls) && curMode < CfgNum
      modifies this`wire, this`ctrls, this`longExpShift
      ensures Valid()
      ensures ctrls == FramedCtrls(old(ctrls), curMode)
      ensures longExpShift == ShiftFor(DefaultFrameLength(curMode))
      ensures wire == old(wire) + FramingWire(nak, |old(wire)|, FramingClampMsgs(old(ctrls), curMode), curMode)
    {
      ghost var w0 := wire;
      ghost var s0 := ctrls;
      SetVBlankLimits();
      ghost var w1 := wire;
      SetHBlankLimits();
      FramingWireSplit(nak, w0, w1, wire, FramingClampMsgs(s0, curMode), curMode);
    }

    /** The vblank half of imx477_set_framing_limits: the shift reset to 0,
        the range of the mode, then vblank set to the default frame length
        (re-ranging exposure, which may write it). */
    method SetVBlankLimits()
      requires SaneCtrls(ctrls) && curMode < CfgNum
      modifies this`wire, this`ctrls, this`longExpShift
      ensures Ready() && FramingConsistent()
      ensures ctrls == VBlankFramed(old(ctrls), curMode)
      ensures longExpShift == ShiftFor(DefaultFrameLength(curMode))
      ensures var pre := FramingClampMsgs(old(ctrls), curMode);
        wire == old(wire) + pre + Attempt(nak, |old(wire)| + |pre|, FrameLengthMsgs(DefaultFrameLength(curMode)))
    {
      var m := SupportedModes[curMode];
      var frmLengthDefault := DefaultFrameLength(curMode);
      longExpShift := 0;
      VBlankRangeFits(ctrls, curMode);
      VBlankDefaultMsgs(ctrls, curMode, ShiftFor(frmLengthDefault));
      ctrls := VBlankRange(ctrls, curMode);
      var _ := SetCtrl(VBlank, frmLengthDefault - m.height);
    }

    /** The hblank half of imx477_set_framing_limits: the range of the mode,
        then hblank set to its minimum, which writes the mode's line length. */
    method SetHBlankLimits()
      requires Ready() && FramingConsistent()
      modifies this`wire, this`ctrls, this`longExpShift
      ensures Valid() && longExpShift == old(longExpShift)
      ensures ctrls == HBlankFramed(old(ctrls), curMode)
      ensures wire == old(wire) + Attempt(nak, |old(wire)|, [Msg(REG_LINE_LENGTH, 2, SupportedModes[curMode].lineLengthPix)])
    {
      var m := SupportedModes[curMode];
      ModeTableFacts(curMode);
      var hblankMin := m.lineLengthPix - m.width;
      HBlankRangeFits(ctrls, curMode, longExpShift);
      ctrls := HBlankRange(ctrls, curMode);
      var _ := SetCtrl(HBlank, hblankMin);
    }

    /** The common settings of __imx477_start_streaming, once per power
        cycle: unless already written, the common table and, only if it went
        through, the extra table; they count as written once both went
        through. */
    method WriteCommonOnce() returns (ret: int)
      modifies this`wire, this`commonRegsWritten
      ensures wire == old(wire) + Attempt(nak, |old(wire)|, old(PendingCommon()))
      ensures ret == Status(nak, |old(wire)|, old(PendingCommon()))
      ensures commonRegsWritten == (old(commonRegsWritten) || Delivered(nak, |old(wire)|, CommonMsgs()))
    {
      if commonRegsWritten {
        return 0;
      }
      ghost var w0 := wire;
      ret := WriteRegs(commonRegs);
      if ret == 0 {
        ghost var w1 := wire;
        ret := WriteRegs(extraRegs);
        ThenDone(nak, w0, TableMsgs(commonRegs), TableMsgs(extraRegs), w1, wire, ret);
      } else {
        ThenFailed(nak, w0, TableMsgs(commonRegs), TableMsgs(extraRegs), wire, ret);
      }
      if ret == 0 {
        commonRegsWritten := true;
      }
    }

    /** The part of __imx477_start_streaming after the mode table: every
        control re-applied, then, only if that went through, the streaming bit. */
    method ReplayAndStreamOn() returns (ret: int)
      requires Valid()
      modifies this`wire, this`ctrls, this`longExpShift
      ensures Valid() && longExpShift == old(longExpShift)
      ensures ctrls == AdjustExposure(old(ctrls), SupportedModes[curMode].height)
      ensures wire == old(wire) + Attempt(nak, |old(wire)|, ReplayMsgs(old(ctrls), ReplayOrder, curMode, longExpShift) + [StreamOnMsg()])
      ensures ret == Status(nak, |old(wire)|, ReplayMsgs(old(ctrls), ReplayOrder, curMode, longExpShift) + [StreamOnMsg()])
    {
      ghost var w0 := wire;
      ghost var r := ReplayMsgs(ctrls, ReplayOrder, curMode, longExpShift);
      ret := HandlerSetup();
      if ret == 0 {
        ghost var w1 := wire;
        ret := WriteReg(REG_MODE_SELECT, 1, MODE_STREAMING);
        ThenDone(nak, w0, r, [StreamOnMsg()], w1, wire, ret);
      } else {
        ThenFailed(nak, w0, r, [StreamOnMsg()], wire, ret);
      }
    }

    /** The part of __imx477_start_streaming after the common settings: the
        current mode's table and, only if it went through, the rest. */
    method StartMode() returns (ret: int)
      requires Valid()
      modifies this`wire, this`ctrls, this`longExpShift
      ensures Valid() && longExpShift == old(longExpShift)
      ensures wire == old(wire) + Attempt(nak, |old(wire)|, ModeStartMsgs(old(ctrls), curMode, longExpShift))
      ensures ret == Status(nak, |old(wire)|, ModeStartMsgs(old(ctrls), curMode, longExpShift))
      ensures ctrls == if Delivered(nak, |old(wire)|, ModeMsgs(curMode))
                       then AdjustExposure(old(ctrls), SupportedModes[curMode].height) else old(ctrls)
    {
      ghost var w0 := wire;
      ghost var rest := ReplayMsgs(ctrls, ReplayOrder, curMode, longExpShift) + [StreamOnMsg()];
      ret := WriteRegs(ModeRegs(SupportedModes[curMode].regList));
      if ret == 0 {
        ghost var w1 := wire;
        ret := ReplayAndStreamOn();
        ThenDone(nak, w0, ModeMsgs(curMode), rest, w1, wire, ret);
      } else {
        ThenFailed(nak, w0, ModeMsgs(curMode), rest, wire, ret);
      }
    }

    /** __imx477_start_streaming: the common tables once per power cycle, the
        current mode's table, every control re-applied, then the streaming
        bit, giving up at the first failure. */
    method StartStreaming() returns (ret: int)
      requires Valid()
      modifies this`wire, this`ctrls, this`longExpShift, this`commonRegsWritten
      ensures Valid() && longExpShift == old(longExpShift)
      ensures wire == old(wire) + Attempt(nak, |old(wire)|, StartMsgs(old(PendingCommon()), old(ctrls), curMode, longExpShift))
      ensures ret == Status(nak, |old(wire)|, StartMsgs(old(PendingCommon()), old(ctrls), curMode, longExpShift))
      ensures commonRegsWritten == (old(commonRegsWritten) || Delivered(nak, |old(wire)|, CommonMsgs()))
      ensures ctrls == if Delivered(nak, |old(wire)|, SetupMsgs(old(PendingCommon()), curMode))
                       then AdjustExposure(old(ctrls), SupportedModes[curMode].height) else old(ctrls)
    {
      ghost var w0 := wire;
      ghost var c := PendingCommon();
      ghost var rest := ModeStartMsgs(ctrls, curMode, longExpShift);
      ret := WriteCommonOnce();
      DeliveredAppend(nak, |w0|, c, ModeMsgs(curMode));
      if ret == 0 {
        ghost var w1 := wire;
        AttemptStopsAtFailure(nak, |w0|, c);
        ret := StartMode();
        ThenDone(nak, w0, c, rest, w1, wire, ret);
      } else {
        ThenFailed(nak, w0, c, rest, wire, ret);
      }
    }

    /** __imx477_stop_streaming: the standby write, whose failure is only
        logged. */
    method StopStreaming()
      modifies this`wire
      ensures wire == old(wire) + Attempt(nak, |old(wire)|, [StreamOffMsg()])
    {
      var _ := WriteReg(REG_MODE_SELECT, 1, MODE_STANDBY);
    }

    /** imx477_s_stream, with `pmResult` the result of taking the runtime-PM
        reference. The request is compared with the streaming flag as an
        integer; a start that fails leaves the flag as it was. */
    method SStream(enable: int, pmResult: int) returns (ret: int)
      requires Valid()
      modifies this`wire, this`ctrls, this`longExpShift, this`commonRegsWritten, this`streaming, this`flipsGrabbed
      ensures Valid()
      ensures IntOf(old(streaming)) == enable || (enable != 0 && pmResult < 0) ==>
        ret == (if IntOf(old(streaming)) == enable then 0 else pmResult) && unchanged(this)
      ensures IntOf(old(streaming)) != enable && enable != 0 && pmResult >= 0 ==>
        var plan := StartMsgs(old(PendingCommon()), old(ctrls), curMode, longExpShift);
        wire == old(wire) + Attempt(nak, |old(wire)|, plan) && ret == Status(nak, |old(wire)|, plan) &&
        streaming == (ret == 0 || old(streaming)) && flipsGrabbed == (ret == 0 || old(flipsGrabbed)) &&
        longExpShift == old(longExpShift) &&
        commonRegsWritten == (old(commonRegsWritten) || Delivered(nak, |old(wire)|, CommonMsgs())) &&
        ctrls == if Delivered(nak, |old(wire)|, SetupMsgs(old(PendingCommon()), curMode))
                 then AdjustExposure(old(ctrls), SupportedModes[curMode].height) else old(ctrls)
      ensures IntOf(old(streaming)) != enable && enable == 0 ==>
        ret == 0 && wire == old(wire) + Attempt(nak, |old(wire)|, [StreamOffMsg()]) &&
        !streaming && !flipsGrabbed && ctrls == old(ctrls) && longExpShift == old(longExpShift) &&
        commonRegsWritten == old(commonRegsWritten)
    {
      if IntOf(streaming) == enable {
        return 0;
      }
      if enable != 0 {
        if pmResult < 0 {
          return pmResult;
        }
        ret := StartStreaming();
        if ret != 0 {
          return;
        }
      } else {
        StopStreaming();
        ret := 0;
      }
      streaming := enable != 0;
      flipsGrabbed := enable != 0;
    }

    /** imx477_s_power, with `pmResult` the result of taking the runtime-PM
        reference: only the power flag changes, and a successful power-up
        reports that result, which need not be 0. */
    method SPower(on: int, pmResult: int) returns (ret: int)
      modifies this`powerOn
      ensures old(powerOn) == (on != 0) ==> ret == 0 && powerOn == old(powerOn)
      ensures !old(powerOn) && on != 0 ==> ret == pmResult && powerOn == (pmResult >= 0)
      ensures old(powerOn) && on == 0 ==> ret == 0 && !powerOn
    {
      if powerOn == (on != 0) {
        return 0;
      }
      if on != 0 {
        if pmResult < 0 {
          return pmResult;
        }
        powerOn := true;
        ret := pmResult;
      } else {
        powerOn := false;
        ret := 0;
      }
    }

    /** __imx477_power_off: the sensor loses its settings, so the common
        tables must be written again on the next stream start. */
    method PowerOff() returns (ret: int)
      modifies this`commonRegsWritten
      ensures ret == 0 && !commonRegsWritten
    {
      commonRegsWritten := false;
      ret := 0;
    }

    /** imx477_suspend. */
    method Suspend() returns (ret: int)
      modifies this`commonRegsWritten
      ensures ret == 0 && !commonRegsWritten
    {
      var _ := PowerOff();
      ret := 0;
    }

    /** imx477_resume, with `powerOnResult` the result of __imx477_power_on:
        on failure the sensor is put in standby and no longer counts as
        streaming. */
    method Resume(powerOnResult: int) returns (ret: int)
      modifies this`wire, this`streaming
      ensures ret == powerOnResult
      ensures powerOnResult == 0 ==> wire == old(wire) && streaming == old(streaming)
      ensures powerOnResult != 0 ==> wire == old(wire) + Attempt(nak, |old(wire)|, [StreamOffMsg()]) && !streaming
    {
      if powerOnResult != 0 {
        StopStreaming();
        streaming := false;
        return powerOnResult;
      }
      return 0;
    }

    /** imx477_set_fmt: the best-fit mode's format is reported; an active
        request makes that mode current, re-deriving the framing limits when
        the mode changes. A try request stores the reported format as the try
        format, as the driver evidently intends; as written it reports the
        stored try format instead (TryReplyAsWritten). */
    method SetFmt(which: Whence, code: u32, width: int, height: int) returns (f: MbusFormat)
      requires Valid()
      modifies this`wire, this`ctrls, this`longExpShift, this`curMode, this`tryFmt
      ensures Valid()
      ensures which.Try? ==>
        (exists m :: IsBestFit(m, code, width, height) && f == ModeFormat(m)) && tryFmt == f &&
        curMode == old(curMode) && ctrls == old(ctrls) && longExpShift == old(longExpShift) && wire == old(wire)
      ensures which.Active? ==> tryFmt == old(tryFmt)
      ensures which.Active? ==> IsBestFit(curMode, code, width, height) && f == ModeFormat(curMode)
      ensures which.Active? && curMode == old(curMode) ==>
        ctrls == old(ctrls) && longExpShift == old(longExpShift) && wire == old(wire)
      ensures which.Active? && curMode != old(curMode) ==>
        ctrls == FramedCtrls(old(ctrls), curMode) && longExpShift == ShiftFor(DefaultFrameLength(curMode)) &&
        wire == old(wire) + FramingWire(nak, |old(wire)|, FramingClampMsgs(old(ctrls), curMode), curMode)
    {
      var mode := FindBestFit(code, width, height);
      f := ModeFormat(mode);
      if which.Try? {
        tryFmt := f;
      } else if curMode != mode {
        curMode := mode;
        SetFramingLimits();
      }
    }

    /** imx477_open: the try format starts as mode 0's format. */
    method Open()
      modifies this`tryFmt
      ensures tryFmt == ModeFormat(0)
    {
      tryFmt := ModeFormat(0);
    }

    /** imx477_init_controls: the controls registered, then the framing limits
        of the current mode applied to them. */
    method InitControls()
      requires curMode < CfgNum
      modifies this`wire, this`ctrls, this`longExpShift
      ensures Valid()
      ensures ctrls == FramedCtrls(InitialCtrls, curMode)
      ensures longExpShift == ShiftFor(DefaultFrameLength(curMode))
      ensures wire == old(wire) + FramingWire(nak, |old(wire)|, FramingClampMsgs(InitialCtrls, curMode), curMode)
    {
      ctrls := InitialCtrls;
      InitialCtrlsSane();
      SetFramingLimits();
    }

    /** The device as imx477_probe leaves it: mode 0, not streaming, not
        powered, nothing written yet, the controls registered by
        imx477_init_controls and the framing limits of mode 0 applied. */
    constructor (nak: set<nat>)
      ensures Valid()
      ensures this.nak == nak && curMode == 0
      ensures !streaming && !powerOn && !commonRegsWritten && !flipsGrabbed
      ensures ctrls == FramedCtrls(InitialCtrls, curMode) && longExpShift == ShiftFor(DefaultFrameLength(curMode))
      ensures wire == FramingWire(nak, 0, FramingClampMsgs(InitialCtrls, curMode), curMode)
      ensures tryFmt == ModeFormat(curMode)
      ensures commonRegs == CommonRegs && extraRegs == ExtraRegs
    {
      this.nak := nak;
      commonRegs := CommonRegs;
      extraRegs := ExtraRegs;
      wire := [];
      curMode := 0;
      streaming := false;
      powerOn := false;
      commonRegsWritten := false;
      longExpShift := 0;
      flipsGrabbed := false;
      // Each open file handle has its own try format, which imx477_open sets;
      // the model keeps a single one and starts it as imx477_open would.
      tryFmt := ModeFormat(0);
      new;
      InitControls();
    }
  }
}
