# IMX477 sensor driver model

A Dafny model of the Arducam/Sony IMX477 camera-sensor driver
(`drivers/media/i2c/arducam-imx477p.c`), a V4L2 sub-device driver. The model
covers the parts of the driver that have behaviour of their own:

- **Register access** (module `Registers`, `Bus`). A write is a 16-bit
  big-endian address followed by the `len` low-order bytes of the value, most
  significant first. A read places up to 4 reply bytes right-aligned in a
  zeroed word and reads that word big-endian. The I2C bus is a log of write
  messages (`Msg(reg, len, val)`). Whether the sensor acknowledges a message is
  an oracle: the set `nak` of log positions that fail. `Attempt` and `Status`
  describe a sequence of writes that stops at its first failure.
- **Register tables** (module `Tables`). These are the vendor tables
  `mode_common_regs` and the three mode tables in full, as constants.
- **Modes** (module `Modes`). This holds `supported_modes`, the enumeration of
  bus codes and frame sizes, the L1 resolution distance and the best-fit
  search.
- **Frame timing** (module `Timing`). The frame length of a frame interval is
  computed with the 32-bit cut of `do_div`'s divisor. The long-exposure shift
  halves a frame length until it fits the 16-bit register.
- **Controls** (module `Controls`). These are the V4L2 controls the driver
  registers: ranges, steps, defaults and values. The model includes the range
  change the framework applies (`__v4l2_ctrl_modify_range`) and
  `imx477_adjust_exposure_range`.
- **The device** (module `Sensor`, class `Imx477`). The fields of
  `struct imx477` the driver updates are `cur_mode`, `streaming`, `power_on`,
  `common_regs_written`, `long_exp_shift`, the controls and the try format.
  The class also holds the bus log. Its methods are:
  - `imx477_write_reg` / `imx477_write_regs`;
  - `imx477_set_frame_length` and `imx477_set_ctrl`;
  - the control replay of `__v4l2_ctrl_handler_setup`;
  - `imx477_set_framing_limits`;
  - `__imx477_start_streaming` / `__imx477_stop_streaming`;
  - `imx477_s_stream`, `imx477_s_power`, `__imx477_power_off`, suspend and
    resume;
  - `imx477_set_fmt` / `imx477_get_fmt` and `imx477_open`.

  The invariant `Valid` keeps three things true between operations:
  - every control value is in its range;
  - the exposure range and the long-exposure shift follow the current frame
    length;
  - the line length stays within its 16-bit register.

  The second of these rests on two simplifications of the control framework,
  listed under "Left out": every accepted value is committed, and the callback
  always runs.

Every method that writes to the sensor is specified as "the log grows by
`Attempt(nak, at, plan)` and the result is `Status(nak, at, plan)`". Here
`plan` is a function of the old state that names the exact messages in order.
A vblank change can be preceded by one exposure write whose result is ignored:
the framework's own callback when the exposure re-range lowers the exposure.
The lemmas of `Bus` show that chaining writers that each give up at the first
error gives one writer that gives up at the first error. That is how the
stream-start order is proved.

Inputs the driver gets from code outside it are parameters:
- the bus acknowledgements (`nak`);
- the result of `pm_runtime_get_sync` (`pmResult`);
- the result of `__imx477_power_on` (`powerOnResult`);
- the bytes a register read returns.

## Model

| member | source | states |
|---|---|---|
| Registers.WriteFrame | drivers/media/i2c/arducam-imx477p.c:1155-1169 | the buffer handed to the bus has `len + 2` bytes, starting with the address high byte then low byte |
| Registers.EncodeWrite | drivers/media/i2c/arducam-imx477p.c:1155-1169 | `len > 4` is refused with -EINVAL exactly; otherwise the bytes are the big-endian address followed by the `len` low-order bytes of `val`, most significant first |
| Registers.WriteFrameLayout | drivers/media/i2c/arducam-imx477p.c:1162-1165 | shifting `val` up by `4 - len` bytes in a 32-bit word and sending `len` of its bytes sends exactly the low `len` bytes of `val` |
| Registers.ReadRequest | drivers/media/i2c/arducam-imx477p.c:1126-1136 | the two address bytes sent before a read decode to the register address |
| Registers.ReadValue | drivers/media/i2c/arducam-imx477p.c:1127-1148 | right-aligning the reply in a zeroed 4-byte buffer and reading it big-endian gives the big-endian value of the reply, below 256^len |
| Registers.ReadReg | drivers/media/i2c/arducam-imx477p.c:1122-1152 | -EINVAL for `len > 4`, -EIO when the transfer does not complete, otherwise the decoded reply, below 256^len |
| Registers.BigEndianRoundTrip | drivers/media/i2c/arducam-imx477p.c:1163-1165 | decoding the `n`-byte big-endian encoding of `x` gives `x mod 256^n` |
| Registers.FromBigEndianRoundTrip | drivers/media/i2c/arducam-imx477p.c:1148 | encoding the value of a byte string gives back the string |
| Registers.WriteThenRead | drivers/media/i2c/arducam-imx477p.c:1122-1169 | decoding a write's data bytes the way the read does gives `val mod 256^len`, and its first two bytes give the address |
| Registers.WriteThenReadFits | drivers/media/i2c/arducam-imx477p.c:1122-1169 | a value that fits `len` bytes survives the write/read round trip whole |
| Bus.Bytes | drivers/media/i2c/arducam-imx477p.c:1162-1165 | a message puts `len + 2` bytes on the bus |
| Bus.BytesDecode | drivers/media/i2c/arducam-imx477p.c:1155-1169 | the bytes of a message decode to its register and to its value cut to its width; a value that fits arrives whole |
| Bus.Attempt | drivers/media/i2c/arducam-imx477p.c:1178-1187 | sending a non-empty plan sends something, and never more messages than the plan has |
| Bus.AttemptIsPrefix | drivers/media/i2c/arducam-imx477p.c:1178-1187 | what is sent is a prefix of the plan |
| Bus.Status | drivers/media/i2c/arducam-imx477p.c:1165-1168 | the status is 0 exactly when every message was acknowledged, otherwise -EIO |
| Bus.AttemptStopsAtFailure | drivers/media/i2c/arducam-imx477p.c:1178-1187 | a delivered plan is sent whole; otherwise sending stops at the first refused message, after which nothing is sent and everything before it was acknowledged |
| Bus.DeliveredAppend | drivers/media/i2c/arducam-imx477p.c:1178-1187 | a plan of two parts is delivered exactly when both parts are |
| Bus.AttemptAppend | drivers/media/i2c/arducam-imx477p.c:1178-1189 | sending `p + q` sends `p` and, only if all of `p` went through, `q` right after it |
| Bus.AttemptAfterPrefix | drivers/media/i2c/arducam-imx477p.c:1178-1187 | after a delivered prefix, a failed step fails the whole sequence and ends what is sent |
| Bus.AttemptThen | drivers/media/i2c/arducam-imx477p.c:1551-1562 | when the first of two steps fails, the log and status are those of the whole two-step sequence |
| Bus.ConcatAppend | drivers/media/i2c/arducam-imx477p.c:1575 | the messages of a sequence of steps split at any point |
| Bus.ConcatStep | drivers/media/i2c/arducam-imx477p.c:1575 | one step of a step-by-step sender: either the steps so far went through, or the log and status are those of the whole sequence |
| Bus.ThenFailed | drivers/media/i2c/arducam-imx477p.c:1551-1562 | a first step that fails is the failure of the two-step sequence |
| Bus.ThenDone | drivers/media/i2c/arducam-imx477p.c:1551-1562 | a delivered first step followed by a second step is the two-step sequence |
| Modes.ModeFormat | drivers/media/i2c/arducam-imx477p.c:1388-1391 | a mode's format is its width, height and bus code with progressive field |
| Modes.ModeTableFacts | drivers/media/i2c/arducam-imx477p.c:956-1014 | every mode is 10-bit RGGB, with line length above the width and default interval equal to the fastest |
| Modes.EnumMbusCode | drivers/media/i2c/arducam-imx477p.c:1334-1346 | -EINVAL exactly past the table; otherwise the mode's bus code |
| Modes.EnumFrameSize | drivers/media/i2c/arducam-imx477p.c:1348-1370 | success exactly for an index inside the table whose mode has the requested code; then min and max are the mode's width and height; otherwise -EINVAL |
| Modes.ResoDist | drivers/media/i2c/arducam-imx477p.c:1445-1450 | the true L1 distance (corrected; see Findings): 0 exactly for the mode's own size, and at least each coordinate difference |
| Modes.FindBestFit | drivers/media/i2c/arducam-imx477p.c:1452-1473 | it returns the lowest-index mode of the requested code at the least true distance, or mode 0 when no mode has the code (corrected; see Findings) |
| Modes.S32 | drivers/media/i2c/arducam-imx477p.c:1445-1450 | the conversion of an unsigned value to a 32-bit `int` lies in the `int` range and agrees with the value modulo 2^32 |
| Modes.ResoDistAsWritten | drivers/media/i2c/arducam-imx477p.c:1445-1450 | as written, the distance wraps to a 32-bit `int`; it equals the true distance exactly when that is below 2^31 |
| Modes.FindBestFitAsWritten | drivers/media/i2c/arducam-imx477p.c:1452-1473 | as written, the loop returns a mode index, and the lowest-index mode of the requested code at the least wrapped distance whenever no candidate's wrapped distance is -1 |
| Modes.ResoDistWraps | drivers/media/i2c/arducam-imx477p.c:1445-1473 | for a 2147487074x2442 request the search as written returns mode 2, while mode 1 is the best fit by the true distance |
| Modes.BestFitUnique | drivers/media/i2c/arducam-imx477p.c:1452-1473 | there is exactly one best fit for a request |
| Modes.EnumeratedSizeIsExact | drivers/media/i2c/arducam-imx477p.c:1348-1370 | requesting a size that size enumeration lists selects a mode of exactly that size |
| Modes.ExactRequestSelectsMode | drivers/media/i2c/arducam-imx477p.c:1452-1473 | requesting a mode's exact size and code selects that mode |
| Timing.Shr | drivers/media/i2c/arducam-imx477p.c:1233 | shifting right never increases a value |
| Timing.ShrHalve | drivers/media/i2c/arducam-imx477p.c:1231-1234 | one more shift halves the shifted value |
| Timing.ShrMonotonic | drivers/media/i2c/arducam-imx477p.c:1272-1275 | shifting keeps the order of values |
| Timing.ShiftFor | drivers/media/i2c/arducam-imx477p.c:1229-1234 | the shift makes the frame length fit FRAME_LENGTH_MAX |
| Timing.ShiftForLeast | drivers/media/i2c/arducam-imx477p.c:1229-1234 | every smaller shift leaves the length above FRAME_LENGTH_MAX |
| Timing.ShiftForExact | drivers/media/i2c/arducam-imx477p.c:1229-1234 | the least shift that makes the length fit is the shift |
| Timing.ShiftForBound | drivers/media/i2c/arducam-imx477p.c:1429-1431 | a length of at most 2^n register maxima needs a shift of at most n |
| Timing.ShiftForLimits | drivers/media/i2c/arducam-imx477p.c:1429-1431 | within the vblank range the driver sets, the shift is at most LONG_EXP_SHIFT_MAX (7); any 32-bit length needs at most 17 |
| Timing.ExposureFits | drivers/media/i2c/arducam-imx477p.c:1272-1275 | an exposure up to the frame length, shifted by the frame length's shift, fits the 16-bit exposure register |
| Timing.GetFrameLength | drivers/media/i2c/arducam-imx477p.c:1400-1414 | the result is the raw line count clamped to FRAME_LENGTH_MAX and raised to the mode height: always at least the height, at most FRAME_LENGTH_MAX when the height is, and exactly the raw count when that lies between them |
| Timing.ModeFrameLengths | drivers/media/i2c/arducam-imx477p.c:1400-1414 | the three modes have frame lengths 3258, 2285 and 1233 lines, with no truncation of the divisor |
| Controls.Put | drivers/media/i2c/arducam-imx477p.c:1912-1985 | replacing a control's entry gives that entry and leaves every other entry as it was |
| Controls.CtrlsExt | drivers/media/i2c/arducam-imx477p.c:1912-1985 | the control handler is determined by its entries |
| Controls.InitialCtrlsValid | drivers/media/i2c/arducam-imx477p.c:1928-1985 | every control starts inside its registered range, and the test-pattern menu has one entry per register value |
| Controls.ModifyRange | drivers/media/i2c/arducam-imx477p.c:1220-1222 | a valid new range replaces range, step and default and clamps the value into it, keeping a value already inside; an invalid one changes nothing |
| Controls.Store | drivers/media/i2c/arducam-imx477p.c:1245-1257 | the framework stores the control's new value before the callback, and no other control changes |
| Controls.StoreSame | drivers/media/i2c/arducam-imx477p.c:1245-1257 | storing the value a control already has changes nothing |
| Controls.SetRange | drivers/media/i2c/arducam-imx477p.c:1220-1222 | a range change touches only the control whose range changes |
| Controls.AdjustExposureEffect | drivers/media/i2c/arducam-imx477p.c:1212-1223 | after a vblank change the exposure maximum is `height + vblank - 22`, the exposure becomes the smaller of that and its old value, and no other control changes |
| Controls.AdjustExposureIdempotent | drivers/media/i2c/arducam-imx477p.c:1212-1223 | re-ranging exposure twice for the same frame length is re-ranging it once |
| Sensor.TableMsgs | drivers/media/i2c/arducam-imx477p.c:1178-1179 | a table is sent as one 1-byte write per entry, in table order |
| Sensor.SequencerStep | drivers/media/i2c/arducam-imx477p.c:1178-1187 | after entry `i` the log holds either the entries so far, or the whole attempt at the table with a failed status |
| Sensor.FrameLengthMsgs | drivers/media/i2c/arducam-imx477p.c:1225-1243 | programming a frame length takes exactly two writes |
| Sensor.FrameLengthMsgsDecode | drivers/media/i2c/arducam-imx477p.c:1225-1243 | the two writes are `val >> k` (≤ 0xffdc) to 0x0340 as 16 bits, then `k` to 0x3100 as 8 bits. `k` is the least shift that fits, and `k ≤ 7` within the vblank range |
| Sensor.CtrlWrite | drivers/media/i2c/arducam-imx477p.c:1266-1316 | each one-register control writes at most 2 bytes |
| Sensor.CtrlMsgsSameValues | drivers/media/i2c/arducam-imx477p.c:1266-1316 | the callback's writes depend only on the control values, not on their ranges |
| Sensor.ExposureMsgExact | drivers/media/i2c/arducam-imx477p.c:1272-1275 | exposure writes `val >> long_exp_shift` to 0x0202 as 16 bits, and that fits the register |
| Sensor.OrientationMsg | drivers/media/i2c/arducam-imx477p.c:1303-1307 | either flip control writes one byte `hflip | vflip << 1` to 0x0101 |
| Sensor.LineLengthMsg | drivers/media/i2c/arducam-imx477p.c:1313-1316 | the line-length register receives `width + hblank` modulo 2^16, exactly while the sum fits 16 bits |
| Sensor.HBlankRangeAsWritten | drivers/media/i2c/arducam-imx477p.c:1437-1439 | as written, the hblank range runs from the mode's blanking minimum to `LINE_LENGTH_MAX` and changes no other control, so in no mode does it keep the line length within `LINE_LENGTH_MAX` |
| Sensor.LineLengthWraps | drivers/media/i2c/arducam-imx477p.c:1437-1440 | as written, the hblank range accepts 0xfff0 in the 4056-wide mode, and the register then receives 4040, less than the active width |
| Sensor.LineLengthExact | drivers/media/i2c/arducam-imx477p.c:1313-1316 | within the corrected range the register receives exactly `width + hblank ≤ LINE_LENGTH_MAX` |
| Sensor.StoreSane | drivers/media/i2c/arducam-imx477p.c:1245-1257 | storing an accepted value keeps every control in range |
| Sensor.UpdateOtherFits | drivers/media/i2c/arducam-imx477p.c:1245-1327 | setting any accepted control other than vblank keeps the device invariant |
| Sensor.UpdateVBlankFits | drivers/media/i2c/arducam-imx477p.c:1256-1257 | setting an accepted vblank keeps the controls fitting, and the exposure range and shift follow the new frame length |
| Sensor.AdjustKeepsValues | drivers/media/i2c/arducam-imx477p.c:1212-1223 | on a consistent device, re-ranging exposure changes no control value and no callback's writes, and is idempotent |
| Sensor.ReplayOrderFacts | drivers/media/i2c/arducam-imx477p.c:1928-1981 | the replay covers every control in registration order, vblank first, except the link frequency (no callback) and the read-only pixel rate |
| Sensor.ReplayVBlank | drivers/media/i2c/arducam-imx477p.c:1575 | replaying vblank with its own value is accepted, only re-ranges exposure, and keeps the shift |
| Sensor.ReplayOther | drivers/media/i2c/arducam-imx477p.c:1575 | replaying any later control with its own value is accepted and changes no control |
| Sensor.MinFrameLength | drivers/media/i2c/arducam-imx477p.c:1421 | the fastest frame interval's length lies between the mode height and FRAME_LENGTH_MAX |
| Sensor.DefaultFrameLength | drivers/media/i2c/arducam-imx477p.c:1422-1423 | the default frame length lies between the mode height and FRAME_LENGTH_MAX, and equals the fastest |
| Sensor.VBlankRangeFits | drivers/media/i2c/arducam-imx477p.c:1429-1432 | the new vblank range runs from the fastest interval up to 128 register maxima, with step 1 and the default interval as default, and it accepts that default |
| Sensor.HBlankRangeFits | drivers/media/i2c/arducam-imx477p.c:1437-1440 | corrected: the hblank range runs from `line_length_pix - width` to `LINE_LENGTH_MAX - width`, so the line length always fits |
| Sensor.VBlankDefaultMsgs | drivers/media/i2c/arducam-imx477p.c:1435 | moving vblank to its new default programs the default frame length |
| Sensor.FramedCtrlsFacts | drivers/media/i2c/arducam-imx477p.c:1416-1443 | framing limits leave exact vblank and hblank entries, the exposure maximum at `default - 22`, the shift of the default frame length, and every other control unchanged |
| Sensor.FramingWireSplit | drivers/media/i2c/arducam-imx477p.c:1435-1440 | the framing log is the exposure re-range's write, the frame-length attempt and then, whatever its result, the line-length attempt |
| Sensor.FramingClampMsgsFacts | drivers/media/i2c/arducam-imx477p.c:1426-1435 | framing limits write the exposure exactly when it exceeds the default frame length less 22, and then write that bound unshifted, the shift having just been reset to 0 |
| Sensor.InitialFramingClamp | drivers/media/i2c/arducam-imx477p.c:1945-1950 | with the registered exposure 0x640, the framing of modes 0 and 1 writes no exposure, and that of mode 2 writes 1211 |
| Sensor.ClampMsgsFacts | drivers/media/i2c/arducam-imx477p.c:1212-1223 | re-ranging exposure causes a write exactly when the exposure lies above `height + vblank - 22`, and that write is the bound shifted by the shift in force, to 0x0202 |
| Sensor.TryReplyAsWritten | drivers/media/i2c/arducam-imx477p.c:1489-1491 | as written, a try request is answered with the best-fit format only when that format was already the stored try format |
| Sensor.TryReplyIgnoresRequest | drivers/media/i2c/arducam-imx477p.c:1484-1493 | as written, a try request for 1920x1080 right after open selects mode 2 but is answered with mode 0's 4056x3040, the stored try format |
| Sensor.IdentifyModule | drivers/media/i2c/arducam-imx477p.c:1764-1786 | 0 exactly when the read succeeded with the expected id; the read's error is passed on; a different id gives -EIO |
| Sensor.IdentifyChip | drivers/media/i2c/arducam-imx477p.c:1764-1786 | a completed 2-byte chip-id read accepts exactly the reply 0x04 0x77; an incomplete one gives -EIO |
| Sensor.StartMsgsOrder | drivers/media/i2c/arducam-imx477p.c:1544-1582 | stream start sends the pending common tables, the mode table, the replayed controls, then `0x0100 := 1`; with the common tables written it sends the same minus them |
| Sensor.InitialCtrlsSane | drivers/media/i2c/arducam-imx477p.c:1928-1985 | the controls as registered satisfy the control invariant |
| Sensor.Imx477.GetFmt | drivers/media/i2c/arducam-imx477p.c:1372-1398 | a try request gives the stored try format; an active one gives the current mode's width, height and code with progressive field |
| Sensor.Imx477.WriteReg | drivers/media/i2c/arducam-imx477p.c:1155-1169 | `len > 4` gives -EINVAL and sends nothing; otherwise one message is attempted and its status returned |
| Sensor.Imx477.WriteRegs | drivers/media/i2c/arducam-imx477p.c:1172-1190 | one 1-byte write per entry, in order, stopping at and returning the first failure; 0 only if every entry was written |
| Sensor.Imx477.SetFrameLength | drivers/media/i2c/arducam-imx477p.c:1225-1243 | `long_exp_shift` becomes the least shift that fits, and the two frame-length writes are attempted in order, the second only if the first succeeded |
| Sensor.Imx477.SetCtrl | drivers/media/i2c/arducam-imx477p.c:1245-1327 | the control state is the stored value, re-ranging exposure for vblank first. For vblank the exposure is written first, with the old shift, exactly when the re-range lowers it, and that write's result is ignored. Then the callback's writes are attempted and their status returned; link frequency and pixel rate give -EINVAL. The invariant is kept |
| Sensor.Imx477.AdjustExposureRange | drivers/media/i2c/arducam-imx477p.c:1212-1223 | the exposure range follows the current frame length, and the exposure write of a lowering re-range is sent |
| Sensor.Imx477.WriteCtrl | drivers/media/i2c/arducam-imx477p.c:1266-1322 | vblank programs the frame length of `height + vblank` and sets the shift; any other control the switch handles sends its one write; the link frequency, which has no callback, and the read-only pixel rate give -EINVAL |
| Sensor.Imx477.HandlerSetup | drivers/media/i2c/arducam-imx477p.c:1575 | every writable control's callback runs with its own value in registration order until one fails. Only the exposure range is re-ranged; the shift and the invariant are kept |
| Sensor.Imx477.ReplayOne | drivers/media/i2c/arducam-imx477p.c:1575 | one callback of the replay sends that control's writes and leaves the re-ranged state |
| Sensor.Imx477.SetFramingLimits | drivers/media/i2c/arducam-imx477p.c:1416-1443 | the controls become the framed controls of the current mode and the shift that of its default frame length. The exposure write of a lowering re-range is sent, then the frame-length pair and the line length are attempted, the second whatever became of the first |
| Sensor.Imx477.SetVBlankLimits | drivers/media/i2c/arducam-imx477p.c:1426-1435 | the shift is reset, the vblank range is set and vblank moves to the default: the exposure write when the default frame lowers the exposure, then the default frame length's pair |
| Sensor.Imx477.SetHBlankLimits | drivers/media/i2c/arducam-imx477p.c:1437-1440 | the corrected hblank range is set and hblank moves to its minimum, writing the mode's line length |
| Sensor.Imx477.WriteCommonOnce | drivers/media/i2c/arducam-imx477p.c:1550-1565 | unless already written, the common table and, only if it went through, the extra table are sent. The flag becomes true only when both went through |
| Sensor.Imx477.StartMode | drivers/media/i2c/arducam-imx477p.c:1567-1581 | the current mode's table, then, only if it went through, the replay and the streaming bit |
| Sensor.Imx477.ReplayAndStreamOn | drivers/media/i2c/arducam-imx477p.c:1574-1581 | the control replay, then, only if it went through, `0x0100 := 1` |
| Sensor.Imx477.StartStreaming | drivers/media/i2c/arducam-imx477p.c:1544-1582 | the log and result are those of the stream-start sequence, stopping at the first failure. `common_regs_written` becomes true only when the common tables went through. The controls are re-ranged only once the tables went through |
| Sensor.Imx477.StopStreaming | drivers/media/i2c/arducam-imx477p.c:1585-1595 | the standby write `0x0100 := 0` is attempted and its failure ignored |
| Sensor.Imx477.SStream | drivers/media/i2c/arducam-imx477p.c:1597-1644 | a request equal to the state, or a failed runtime-PM get, changes nothing. A start sends the stream-start sequence; streaming and grabbed flips change only if it succeeds. A stop sends standby and clears both |
| Sensor.Imx477.SPower | drivers/media/i2c/arducam-imx477p.c:1647-1674 | the same state gives 0; a power-up takes the runtime-PM result and is on only if that is non-negative; a power-down gives 0 and is off |
| Sensor.Imx477.PowerOff | drivers/media/i2c/arducam-imx477p.c:1707-1719 | the common registers must be written again: `common_regs_written` is false, result 0 |
| Sensor.Imx477.Suspend | drivers/media/i2c/arducam-imx477p.c:1721-1730 | suspend powers off, so the common tables count as unwritten, result 0 |
| Sensor.Imx477.Resume | drivers/media/i2c/arducam-imx477p.c:1732-1749 | a failed power-up sends standby and clears streaming, returning the error; a successful one changes nothing |
| Sensor.Imx477.SetFmt | drivers/media/i2c/arducam-imx477p.c:1475-1507 | an active request makes the best-fit mode current and reports its format, re-deriving the framing limits only when the mode changes. A try request stores the best-fit mode's format as the try format and reports it, changing nothing else (corrected; see Findings) |
| Sensor.Imx477.Open | drivers/media/i2c/arducam-imx477p.c:1192-1210 | the try format becomes mode 0's format |
| Sensor.Imx477.InitControls | drivers/media/i2c/arducam-imx477p.c:1912-2011 | the controls become those registered with the current mode's framing limits applied, the shift follows the default frame length, the framing writes are attempted, and the device invariant holds |
| Sensor.Imx477.constructor | drivers/media/i2c/arducam-imx477p.c:2083-2227 | the device starts in mode 0 with every flag false. Its controls are those registered with mode 0's framing limits, and the log holds only the framing writes. The common tables are the driver's |

## Left out

- Locking (`mutex_lock`) is not modelled. Every operation is sequential.
- Logging, `dev_info`/`dev_err` and `WARN_ON` are not modelled.
- Runtime-PM reference counting, regulators, clocks, the reset GPIO and delays
  are left out. The results of `pm_runtime_get_sync` and `__imx477_power_on`
  are parameters. The runtime-PM core calling suspend and resume on its own is
  not modelled.
- Both I2C calls are replaced by the acknowledgement oracle:
  - `i2c_master_send` reports success or failure of the whole message;
  - `i2c_transfer` success and the reply bytes are inputs.
  A partial send counts as a failure.
- The control framework is reduced to the numbers the driver passes. Left out:
  - its skipping of the callback when a new value equals the old one;
  - the callback that `__v4l2_ctrl_modify_range` makes itself when it clamps
    vblank or hblank (the one it makes when it lowers exposure is modelled,
    as `Sensor.ClampMsgs`);
  - the setting of `pixel_rate` (`__v4l2_ctrl_s_ctrl_int64`), whose value
    never changes;
  - control grabbing beyond the flag. While the flips are grabbed, the
    framework refuses hflip and vflip changes from user space with -EBUSY
    before any callback. `Sensor.Imx477.SetCtrl` starts after the framework
    has accepted a value, and the stream-start replay calls the callback
    whatever the grab, so the model records the flag without reading it;
  - the fwnode orientation/rotation controls;
  - events.
  The model always runs the callback from `__v4l2_ctrl_s_ctrl`.
- The framework makes a new value current only when the callback returns 0.
  After a failure the requested value stays in the control's `val`, which the
  driver reads, until the framework next resets it. The framework is not part of
  this model. The model has one value per control, and it commits every
  accepted value whatever the callback's writes returned. The lines below name
  the members whose contracts this makes stronger than the driver.
- Sensor.Imx477.SetCtrl: the stored value is kept, and for vblank the shift
  too, even when the write fails. In the driver the old value stays current;
  the exposure re-range and `long_exp_shift` still follow the requested vblank.
  After a failed vblank write the exposure range and the shift then no longer
  match the current vblank. The model's `Valid` keeps them matched. Likewise,
  when the exposure write of a lowering re-range fails, the driver's exposure
  stays above its new maximum; the model commits the lowered value.
- Sensor.Imx477.SetVBlankLimits: it ends with vblank at the new default and
  exposure re-ranged whatever the bus did. It also always runs the callback.
  When the clamped vblank already equals the new default, `__v4l2_ctrl_s_ctrl`
  (line 1435) skips `imx477_set_ctrl`. Exposure is then not re-ranged,
  `long_exp_shift` stays at the 0 set at line 1426, and no frame-length write is
  sent. For example, going from mode 1 with vblank 153 and exposure 2000 to
  mode 2 leaves an exposure maximum of 2291 where the model has 1211, and the
  model also writes exposure 1211, which the driver does not.
- Sensor.Imx477.SetVBlankLimits, Sensor.Imx477.SetFramingLimits and
  Sensor.Imx477.SetFmt: the callback that the vblank range change (lines
  1429-1432) makes itself when it clamps vblank is not modelled. Clamping up
  lands on the new default, so the driver's writes come from that callback
  instead of line 1435 and are the same. Clamping down happens when vblank lies
  above 128·0xffdc less the new mode's height, for example when moving from
  mode 2 with vblank 8382920 to mode 0. The driver then first sends the
  frame-length pair of 128·0xffdc lines (`0x0340 := 65500`, `0x3100 := 7`).
  That leaves `long_exp_shift` at 7, so the exposure write of line 1435's
  re-range carries the exposure shifted by 7, not by 0. The model sends neither
  the extra pair nor the shifted value.
- Sensor.Imx477.SetHBlankLimits: it ends with hblank at the new minimum
  whatever the bus did, and always writes the line length. The driver keeps the
  old hblank when that write fails, and skips the callback when hblank already
  equals the minimum. The callback of the range change itself is not modelled:
  with the corrected maximum, clamping hblank down would send one more
  line-length write, of `LINE_LENGTH_MAX`.
- Sensor.Imx477.SetFramingLimits: it inherits both halves above. Its `ctrls`,
  shift and log are those of callbacks that always run and always commit.
- Sensor.Imx477.SetFmt: an active request that changes the mode has the
  framing results of `SetFramingLimits`. It therefore re-ranges exposure and
  sends the framing writes even where the driver skips the vblank callback.
- Sensor.Imx477.InitControls: it promises the framed vblank and hblank and
  `Valid` for every `nak`.
- Sensor.Imx477.constructor: it promises the framed vblank and hblank and
  `Valid` for every `nak`. Probe runs `imx477_init_controls` (line 2160), and
  with it the framing writes, before `__imx477_power_on` (line 2167). Vblank
  and hblank are registered at 0 (lines 1940-1943), so the range changes clamp
  them up and send the frame-length pair and the line length themselves. Lines
  1435 and 1440 send them again only if those writes failed. When none of them
  is acknowledged, the driver keeps vblank and hblank at 0, outside their new
  ranges. Only the exposure re-range persists. The next stream start then
  replays frame length 3040 and line length 4056.
- Sensor.Imx477.Open, Sensor.Imx477.GetFmt and Sensor.Imx477.SetFmt: each open
  file handle has its own try format, set by `imx477_open`. The model keeps a
  single try format for all of them, and the constructor starts it as
  `imx477_open` would.
- Sensor.Imx477.SetFmt: a try request stores the best-fit format as the try
  format and reports it. This is the corrected behaviour of lines 1489-1491,
  which as written report the stored try format and never update it
  (`Sensor.TryReplyAsWritten`; see Findings).
- The gain and test-pattern controls pass their C `int` value to a `u32`
  parameter. This is modelled as `U32` (modulo 2^32); the values are never
  negative within their ranges.
- Modes.ResoDist, Modes.FindBestFit and Sensor.Imx477.SetFmt: they use the
  true L1 distance, not the 32-bit `int` arithmetic of lines 1445-1450. The two
  distances differ exactly when the true one reaches 2^31, which takes a
  requested width plus height of about 2^31 or more. The written arithmetic is `Modes.ResoDistAsWritten`;
  see Findings.
- Modes.FindBestFitAsWritten: it promises nothing when a candidate's wrapped
  distance is -1. The loop also uses -1 for "no mode yet", so such a candidate
  is replaced by the next one with the requested code.
- `CONFIG_VIDEO_V4L2_SUBDEV_API` is taken as enabled. With it disabled, try
  requests return -ENOTTY.
- Sensor.Imx477.SetHBlankLimits, Sensor.Imx477.SetFramingLimits,
  Sensor.Imx477.InitControls, Sensor.Imx477.constructor and
  Sensor.Imx477.SetFmt: through `HBlankRange` and `FramedCtrls` they use the
  corrected hblank maximum (`LINE_LENGTH_MAX - width`), not the written
  `LINE_LENGTH_MAX`. This correction is why the `LineFits` part of `Valid`
  holds: with the written maximum the line length can leave its 16-bit register
  (`Sensor.LineLengthWraps`). See Findings.
- The `rkmodule` ioctls, `g_mbus_config`, `g_frame_interval` and
  `get_module_inf` are left out. They copy constant data to user space.
- Left out from probe and remove:
  - device-tree parsing and `check_hwcfg`;
  - the media-entity and async registration;
  - the chip-id read at probe, whose verdict is `Sensor.IdentifyModule`.
- The 2028x1520, 2028x1080 and 1332x990 register tables are left out. No mode
  refers to them.
- `drivers/media/i2c/imx462.c` is left out. It only prints on module load and
  unload.

## Findings

| source | as written | input that shows it | evidently intended | confidence | as-written member | corrected member |
|---|---|---|---|---|---|---|
| drivers/media/i2c/arducam-imx477p.c:1489-1491 | a try request copies the best-fit mode's format into the request and then overwrites it with the stored try format, which it never updates | right after open (try format 4056x3040), a try request for 1920x1080: mode 2 is the best fit, yet 4056x3040 is returned and stays stored | the best-fit format is stored as the pad's try format and returned, so a try request reports what an active one would select | likely; not executed | Sensor.TryReplyIgnoresRequest | Sensor.Imx477.SetFmt |
| drivers/media/i2c/arducam-imx477p.c:1445-1450 | each difference of two `unsigned int` sizes wraps modulo 2^32 before `abs` reads it as an `int`, and the sum is a wrapping `int` | a request of 2147487074x2442: the wrapped distances are 2147483616, 2147483516 and 2147483504, so the search returns mode 2 (1920x1080); the true distances make mode 1 (3840x2160) the closest | the distance is the L1 distance between the sizes, so the closest mode is selected | high; not executed | Modes.ResoDistWraps | Modes.FindBestFit |
| drivers/media/i2c/arducam-imx477p.c:1437-1440 | the hblank maximum is `LINE_LENGTH_MAX` (0xfff0) in every mode, while the callback writes `width + hblank` into the 16-bit line-length register (lines 1313-1316) | mode 0 (4056 wide), hblank 0xfff0: 4056 + 65520 = 69576 is sent as 69576 mod 65536 = 4040, a line shorter than the active width | the maximum hblank is `LINE_LENGTH_MAX - width`, so the line length never exceeds `LINE_LENGTH_MAX` | high; not executed | Sensor.LineLengthWraps | Sensor.HBlankRangeFits |
