/** The sensor vendor's register tables: ordered (address, byte) pairs that the
    driver writes one byte at a time. Their contents carry no behaviour of their
    own; the driver only sends them in order. */
module Tables {
  import opened Registers

  /** One entry of a register table (struct imx477_reg). */
  datatype Reg = Reg(address: u16, val: u8)

  /** The per-mode register tables, by name; a mode refers to its table
      through one of these. */
  datatype RegList = Regs4056x3040 | Regs3840x2160 | Regs1920x1080

  /** The entries of a per-mode table. */
  function ModeRegs(r: RegList): seq<Reg>
  {
    match r
    case Regs4056x3040 => Mode4056x3040Regs
    case Regs3840x2160 => Mode3840x2160Regs
    case Regs1920x1080 => Mode1920x1080Regs
  }

  /** mode_common_regs (114 entries). */
  const CommonRegs: seq<Reg> := [
    Reg(0x0103, 0x01), Reg(0x0136, 0x18), Reg(0x0137, 0x00), Reg(0x38a8, 0x1f),
    Reg(0x38a9, 0xff), Reg(0x38aa, 0x1f), Reg(0x38ab, 0xff), Reg(0x55d4, 0x00),
    Reg(0x55d5, 0x00), Reg(0x55d6, 0x07), Reg(0x55d7, 0xff), Reg(0x55e8, 0x07),
    Reg(0x55e9, 0xff), Reg(0x55ea, 0x00), Reg(0x55eb, 0x00), Reg(0x575c, 0x07),
    Reg(0x575d, 0xff), Reg(0x575e, 0x00), Reg(0x575f, 0x00), Reg(0x5764, 0x00),
    Reg(0x5765, 0x00), Reg(0x5766, 0x07), Reg(0x5767, 0xff), Reg(0x5974, 0x04),
    Reg(0x5975, 0x01), Reg(0x5f10, 0x09), Reg(0x5f11, 0x92), Reg(0x5f12, 0x32),
    Reg(0x5f13, 0x72), Reg(0x5f14, 0x16), Reg(0x5f15, 0xba), Reg(0x5f17, 0x13),
    Reg(0x5f18, 0x24), Reg(0x5f19, 0x60), Reg(0x5f1a, 0xe3), Reg(0x5f1b, 0xad),
    Reg(0x5f1c, 0x74), Reg(0x5f2d, 0x25), Reg(0x5f5c, 0xd0), Reg(0x6a22, 0x00),
    Reg(0x6a23, 0x1d), Reg(0x7ba8, 0x00), Reg(0x7ba9, 0x00), Reg(0x886b, 0x00),
    Reg(0x9002, 0x0a), Reg(0x9004, 0x1a), Reg(0x9214, 0x93), Reg(0x9215, 0x69),
    Reg(0x9216, 0x93), Reg(0x9217, 0x6b), Reg(0x9218, 0x93), Reg(0x9219, 0x6d),
    Reg(0x921a, 0x57), Reg(0x921b, 0x58), Reg(0x921c, 0x57), Reg(0x921d, 0x59),
    Reg(0x921e, 0x57), Reg(0x921f, 0x5a), Reg(0x9220, 0x57), Reg(0x9221, 0x5b),
    Reg(0x9222, 0x93), Reg(0x9223, 0x02), Reg(0x9224, 0x93), Reg(0x9225, 0x03),
    Reg(0x9226, 0x93), Reg(0x9227, 0x04), Reg(0x9228, 0x93), Reg(0x9229, 0x05),
    Reg(0x922a, 0x98), Reg(0x922b, 0x21), Reg(0x922c, 0xb2), Reg(0x922d, 0xdb),
    Reg(0x922e, 0xb2), Reg(0x922f, 0xdc), Reg(0x9230, 0xb2), Reg(0x9231, 0xdd),
    Reg(0x9232, 0xb2), Reg(0x9233, 0xe1), Reg(0x9234, 0xb2), Reg(0x9235, 0xe2),
    Reg(0x9236, 0xb2), Reg(0x9237, 0xe3), Reg(0x9238, 0xb7), Reg(0x9239, 0xb9),
    Reg(0x923a, 0xb7), Reg(0x923b, 0xbb), Reg(0x923c, 0xb7), Reg(0x923d, 0xbc),
    Reg(0x923e, 0xb7), Reg(0x923f, 0xc5), Reg(0x9240, 0xb7), Reg(0x9241, 0xc7),
    Reg(0x9242, 0xb7), Reg(0x9243, 0xc9), Reg(0x9244, 0x98), Reg(0x9245, 0x56),
    Reg(0x9246, 0x98), Reg(0x9247, 0x55), Reg(0x9380, 0x00), Reg(0x9381, 0x62),
    Reg(0x9382, 0x00), Reg(0x9383, 0x56), Reg(0x9384, 0x00), Reg(0x9385, 0x52),
    Reg(0x9388, 0x00), Reg(0x9389, 0x55), Reg(0x938a, 0x00), Reg(0x938b, 0x55),
    Reg(0x938c, 0x00), Reg(0x938d, 0x41), Reg(0x5078, 0x01), Reg(0x0112, 0x0a),
    Reg(0x0113, 0x0a), Reg(0x0114, 0x01)
  ]

  /** mode_4056x3040_regs (72 entries). */
  const Mode4056x3040Regs: seq<Reg> := [
    Reg(0x0342, 0x49), Reg(0x0343, 0xa8), Reg(0x0350, 0x00), Reg(0x0340, 0x0c),
    Reg(0x0341, 0x1e), Reg(0x3210, 0x00), Reg(0x0344, 0x00), Reg(0x0345, 0x00),
    Reg(0x0346, 0x00), Reg(0x0347, 0x00), Reg(0x0348, 0x0f), Reg(0x0349, 0xd7),
    Reg(0x034a, 0x0b), Reg(0x034b, 0xdf), Reg(0x0220, 0x00), Reg(0x0221, 0x11),
    Reg(0x0381, 0x01), Reg(0x0383, 0x01), Reg(0x0385, 0x01), Reg(0x0387, 0x01),
    Reg(0x0900, 0x00), Reg(0x0901, 0x11), Reg(0x0902, 0x00), Reg(0x3140, 0x02),
    Reg(0x0401, 0x00), Reg(0x0404, 0x00), Reg(0x0405, 0x10), Reg(0x0408, 0x00),
    Reg(0x0409, 0x00), Reg(0x040a, 0x00), Reg(0x040b, 0x00), Reg(0x040c, 0x0f),
    Reg(0x040d, 0xd8), Reg(0x040e, 0x0b), Reg(0x040f, 0xe0), Reg(0x034c, 0x0f),
    Reg(0x034d, 0xd8), Reg(0x034e, 0x0b), Reg(0x034f, 0xe0), Reg(0x0301, 0x05),
    Reg(0x0303, 0x02), Reg(0x0305, 0x04), Reg(0x0306, 0x01), Reg(0x0307, 0x00),
    Reg(0x0309, 0x08), Reg(0x030b, 0x02), Reg(0x030d, 0x02), Reg(0x030e, 0x00),
    Reg(0x030f, 0x98), Reg(0x0310, 0x01), Reg(0x0820, 0x20), Reg(0x0821, 0xd0),
    Reg(0x0822, 0x00), Reg(0x0823, 0x00), Reg(0x3e20, 0x01), Reg(0x3e37, 0x00),
    Reg(0x3f50, 0x00), Reg(0x3f56, 0x00), Reg(0x3f57, 0x82), Reg(0x0202, 0x0c),
    Reg(0x0203, 0x08), Reg(0x0204, 0x00), Reg(0x0205, 0x00), Reg(0x020e, 0x01),
    Reg(0x020f, 0x00), Reg(0x0210, 0x01), Reg(0x0211, 0x00), Reg(0x0212, 0x01),
    Reg(0x0213, 0x00), Reg(0x0214, 0x01), Reg(0x0215, 0x00), Reg(0x0100, 0x01)
  ]

  /** mode_3840x2160_regs (72 entries). */
  const Mode3840x2160Regs: seq<Reg> := [
    Reg(0x0342, 0x34), Reg(0x0343, 0x80), Reg(0x0350, 0x00), Reg(0x0340, 0x08),
    Reg(0x0341, 0xed), Reg(0x3210, 0x00), Reg(0x0344, 0x00), Reg(0x0345, 0x6c),
    Reg(0x0346, 0x01), Reg(0x0347, 0xb8), Reg(0x0348, 0x0f), Reg(0x0349, 0x6b),
    Reg(0x034a, 0x0a), Reg(0x034b, 0x27), Reg(0x0220, 0x00), Reg(0x0221, 0x11),
    Reg(0x0381, 0x01), Reg(0x0383, 0x01), Reg(0x0385, 0x01), Reg(0x0387, 0x01),
    Reg(0x0900, 0x00), Reg(0x0901, 0x11), Reg(0x0902, 0x00), Reg(0x3140, 0x02),
    Reg(0x0401, 0x00), Reg(0x0404, 0x00), Reg(0x0405, 0x10), Reg(0x0408, 0x00),
    Reg(0x0409, 0x00), Reg(0x040a, 0x00), Reg(0x040b, 0x00), Reg(0x040c, 0x0f),
    Reg(0x040d, 0x00), Reg(0x040e, 0x08), Reg(0x040f, 0x70), Reg(0x034c, 0x0f),
    Reg(0x034d, 0x00), Reg(0x034e, 0x08), Reg(0x034f, 0x70), Reg(0x0301, 0x05),
    Reg(0x0303, 0x02), Reg(0x0305, 0x04), Reg(0x0306, 0x01), Reg(0x0307, 0x00),
    Reg(0x0309, 0x08), Reg(0x030b, 0x02), Reg(0x030d, 0x02), Reg(0x030e, 0x00),
    Reg(0x030f, 0x98), Reg(0x0310, 0x01), Reg(0x0820, 0x20), Reg(0x0821, 0xd0),
    Reg(0x0822, 0x00), Reg(0x0823, 0x00), Reg(0x3e20, 0x01), Reg(0x3e37, 0x00),
    Reg(0x3f50, 0x00), Reg(0x3f56, 0x00), Reg(0x3f57, 0x82), Reg(0x0202, 0x08),
    Reg(0x0203, 0xec), Reg(0x0204, 0x00), Reg(0x0205, 0x00), Reg(0x020e, 0x01),
    Reg(0x020f, 0x00), Reg(0x0210, 0x01), Reg(0x0211, 0x00), Reg(0x0212, 0x01),
    Reg(0x0213, 0x00), Reg(0x0214, 0x01), Reg(0x0215, 0x00), Reg(0x0100, 0x01)
  ]

  /** mode_1920x1080_regs (71 entries). */
  const Mode1920x1080Regs: seq<Reg> := [
    Reg(0x0342, 0x20), Reg(0x0343, 0x70), Reg(0x0350, 0x00), Reg(0x0340, 0x04),
    Reg(0x0341, 0xd0), Reg(0x3210, 0x00), Reg(0x0344, 0x00), Reg(0x0345, 0x60),
    Reg(0x0346, 0x01), Reg(0x0347, 0xb8), Reg(0x0348, 0x0f), Reg(0x0349, 0xcb),
    Reg(0x034a, 0x0b), Reg(0x034b, 0xdf), Reg(0x00e3, 0x00), Reg(0x00e4, 0x00),
    Reg(0x00e5, 0x01), Reg(0x00fc, 0x0a), Reg(0x00fd, 0x0a), Reg(0x00fe, 0x0a),
    Reg(0x00ff, 0x0a), Reg(0xe013, 0x00), Reg(0x0220, 0x00), Reg(0x0221, 0x11),
    Reg(0x0381, 0x01), Reg(0x0383, 0x01), Reg(0x0385, 0x01), Reg(0x0387, 0x01),
    Reg(0x0900, 0x01), Reg(0x0901, 0x22), Reg(0x0902, 0x02), Reg(0x3140, 0x02),
    Reg(0x3241, 0x11), Reg(0x3250, 0x03), Reg(0x3e10, 0x00), Reg(0x3e11, 0x00),
    Reg(0x3f0d, 0x00), Reg(0x3f42, 0x00), Reg(0x3f43, 0x00), Reg(0x0401, 0x00),
    Reg(0x0404, 0x00), Reg(0x0405, 0x10), Reg(0x0408, 0x00), Reg(0x0409, 0x00),
    Reg(0x040a, 0x00), Reg(0x040b, 0x00), Reg(0x040c, 0x07), Reg(0x040d, 0x80),
    Reg(0x040e, 0x04), Reg(0x040f, 0x38), Reg(0x034c, 0x07), Reg(0x034d, 0x80),
    Reg(0x034e, 0x04), Reg(0x034f, 0x38), Reg(0x0301, 0x05), Reg(0x0303, 0x02),
    Reg(0x0305, 0x04), Reg(0x0306, 0x01), Reg(0x0307, 0x00), Reg(0x0309, 0x08),
    Reg(0x030b, 0x02), Reg(0x030d, 0x02), Reg(0x030e, 0x00), Reg(0x030f, 0x98),
    Reg(0x0310, 0x01), Reg(0x0820, 0x20), Reg(0x0821, 0xd0), Reg(0x0822, 0x00),
    Reg(0x0823, 0x00), Reg(0x3e20, 0x01), Reg(0x3e37, 0x00)
  ]

  /** The extra_regs list of the only compatible entry ("arducam,imx477p"),
      which is empty. */
  const ExtraRegs: seq<Reg> := []
}
