/** Register access on the sensor's control bus: how imx477_write_reg lays a
    register write out on the wire, and how imx477_read_reg turns the bytes the
    sensor answers with into a value. Addresses are 16 bits, values at most
    32 bits, and every multi-byte quantity travels most significant byte first. */
module Registers {

  type u8 = x: int | 0 <= x < 0x100
  type u16 = x: int | 0 <= x < 0x1_0000
  type u32 = x: int | 0 <= x < 0x1_0000_0000

  /** C's conversion of a signed value to u32: modulo 2^32. */
  function U32(v: int): u32
  {
    v % 0x1_0000_0000
  }

  /** Kernel error numbers the driver returns (negated). */
  const EIO: int := 5
  const EINVAL: int := 22

  function Pow256(n: nat): (p: nat)
    ensures p >= 1
  {
    if n == 0 then 1 else 256 * Pow256(n - 1)
  }

  /** The `n` low-order bytes of `x`, most significant first. */
  function BigEndian(x: int, n: nat): (b: seq<u8>)
    ensures |b| == n
    decreases n
  {
    if n == 0 then [] else BigEndian(x / 256, n - 1) + [x % 256]
  }

  /** The number whose big-endian byte string is `b`. */
  function FromBigEndian(b: seq<u8>): (x: nat)
    ensures x < Pow256(|b|)
  {
    if b == [] then 0
    else
      var hi := FromBigEndian(b[..|b| - 1]);
      assert hi * 256 <= (Pow256(|b| - 1) - 1) * 256;
      hi * 256 + b[|b| - 1]
  }

  function Zeros(n: nat): (z: seq<u8>)
    ensures |z| == n && forall i :: 0 <= i < n ==> z[i] == 0
  {
    seq(n, i => 0)
  }

  // ---------------------------------------------------------------------------
  // Writes (imx477_write_reg)

  /** The 32-bit word `val << 8 * (4 - len)` that imx477_write_reg stores
      big-endian after the address. For `len == 0` the C shift is by the full
      word width; none of that word is sent then, so the model takes 0. */
  function ShiftedWord(val: u32, len: nat): u32
    requires len <= 4
  {
    (val * Pow256(4 - len)) % 0x1_0000_0000
  }

  /** The bytes imx477_write_reg hands to the bus for a write of `len` bytes of
      `val` to register `reg` (`len <= 4`): the 6-byte buffer made of the
      address and the shifted word, of which the first `len + 2` bytes are sent. */
  function WriteFrame(reg: u16, len: nat, val: u32): (f: seq<u8>)
    requires len <= 4
    ensures |f| == len + 2
    ensures f[0] == reg / 256 && f[1] == reg % 256
  {
    assert BigEndian(reg, 2) == [reg / 256, reg % 256] by {
      assert reg / 256 < 256;
    }
    (BigEndian(reg, 2) + BigEndian(ShiftedWord(val, len), 4))[..len + 2]
  }

  /** The outcome of imx477_write_reg before anything reaches the bus: `len`
      above 4 is refused with -EINVAL, otherwise the frame to send. */
  datatype Encoded = Refused(code: int) | Frame(bytes: seq<u8>)

  function EncodeWrite(reg: u16, len: nat, val: u32): (e: Encoded)
    ensures e.Refused? <==> len > 4
    ensures e.Refused? ==> e.code == -EINVAL
    ensures e.Frame? ==>
              |e.bytes| == len + 2 &&
              e.bytes[..2] == BigEndian(reg, 2) &&
              e.bytes[2..] == BigEndian(val, len)
  {
    if len > 4 then Refused(-EINVAL)
    else
      WriteFrameLayout(reg, len, val);
      Frame(WriteFrame(reg, len, val))
  }

  // ---------------------------------------------------------------------------
  // Reads (imx477_read_reg)

  /** The two address bytes imx477_read_reg writes before reading. */
  function ReadRequest(reg: u16): (b: seq<u8>)
    ensures FromBigEndian(b) == reg
  {
    BigEndianRoundTrip(reg, 2);
    BigEndian(reg, 2)
  }

  /** The value imx477_read_reg reports for the reply `reply`: the bytes are
      stored right-aligned in a zeroed 4-byte buffer read as a big-endian word. */
  function ReadValue(reply: seq<u8>): (v: u32)
    requires |reply| <= 4
    ensures v == FromBigEndian(reply)
    ensures v < Pow256(|reply|)
  {
    LeadingZeros(4 - |reply|, reply);
    FromBigEndian(Zeros(4 - |reply|) + reply)
  }

  datatype ReadResult = ReadOk(value: u32) | ReadErr(code: int)

  /** imx477_read_reg: `len` above 4 is refused before any transfer; a transfer
      that does not complete both messages gives -EIO; otherwise the `len`
      reply bytes are decoded. */
  function ReadReg(len: nat, transferred: bool, reply: seq<u8>): (r: ReadResult)
    requires len <= 4 ==> |reply| == len
    ensures len > 4 ==> r == ReadErr(-EINVAL)
    ensures len <= 4 && !transferred ==> r == ReadErr(-EIO)
    ensures len <= 4 && transferred ==> r.ReadOk? && r.value == FromBigEndian(reply) && r.value < Pow256(len)
  {
    if len > 4 then ReadErr(-EINVAL)
    else if !transferred then ReadErr(-EIO)
    else ReadOk(ReadValue(reply))
  }

  // ---------------------------------------------------------------------------
  // Lemmas

  // Non-linear arithmetic, one step at a time.

  lemma {:induction false} MulNonneg(a: int, b: int)
    requires a >= 0 && b >= 0
    ensures a * b >= 0
    decreases a
  {
    if a > 0 {
      MulNonneg(a - 1, b);
      assert a * b == (a - 1) * b + b;
    }
  }

  lemma MulLe(a: int, b: int, m: int)
    requires a <= b && m >= 0
    ensures a * m <= b * m
  {
    MulNonneg(b - a, m);
    assert (b - a) * m == b * m - a * m;
  }

  lemma MulSmall(d: int, t: int)
    requires d > 0 && -d < d * t < d
    ensures t == 0
  {
    if t >= 1 {
      MulLe(1, t, d);
    } else if t <= -1 {
      MulLe(1, -t, d);
    }
  }

  /** Division with remainder has one answer. */
  lemma DivModUnique(x: int, d: int, q: int, r: int)
    requires d > 0 && x == d * q + r && 0 <= r < d
    ensures x / d == q && x % d == r
  {
    var q', r' := x / d, x % d;
    assert x == d * q' + r';
    assert d * (q - q') == r' - r by {
      assert d * (q - q') == d * q - d * q';
    }
    MulSmall(d, q - q');
  }

  lemma Pow256Add(a: nat, b: nat)
    ensures Pow256(a + b) == Pow256(a) * Pow256(b)
  {
    if b > 0 {
      Pow256Add(a, b - 1);
      assert Pow256(a + b) == 256 * Pow256(a + b - 1);
      assert Pow256(a) * Pow256(b) == Pow256(a) * (256 * Pow256(b - 1));
    }
  }

  /** Taking a number apart byte by byte: dividing by 256 and then by `p`
      is dividing by `256 * p`, and the remainder is made of both remainders. */
  lemma DivModByte(x: int, p: nat)
    requires p > 0
    ensures x / 256 / p == x / (256 * p)
    ensures x % (256 * p) == 256 * (x / 256 % p) + x % 256
  {
    var q, r := x / 256, x % 256;
    var q2, r2 := q / p, q % p;
    assert q == p * q2 + r2;
    assert x == (256 * p) * q2 + (256 * r2 + r);
    assert 256 * r2 + r < 256 * p;
    DivModUnique(x, 256 * p, q2, 256 * r2 + r);
  }

  lemma DivByteThen(x: int, p: nat)
    requires p > 0
    ensures x / 256 / p == x / (256 * p)
  {
    DivModByte(x, p);
  }

  /** Decoding undoes encoding, up to the bytes that were dropped. */
  lemma {:induction false} BigEndianRoundTrip(x: nat, n: nat)
    ensures FromBigEndian(BigEndian(x, n)) == x % Pow256(n)
  {
    if n > 0 {
      var b := BigEndian(x, n);
      assert b[..n - 1] == BigEndian(x / 256, n - 1);
      BigEndianRoundTrip(x / 256, n - 1);
      DivModByte(x, Pow256(n - 1));
    }
  }

  /** Encoding undoes decoding. */
  lemma {:induction false} FromBigEndianRoundTrip(b: seq<u8>)
    ensures BigEndian(FromBigEndian(b), |b|) == b
  {
    if b != [] {
      var n := |b|;
      var hi := FromBigEndian(b[..n - 1]);
      var x := FromBigEndian(b);
      assert x == hi * 256 + b[n - 1];
      DivModUnique(x, 256, hi, b[n - 1]);
      FromBigEndianRoundTrip(b[..n - 1]);
      assert b == b[..n - 1] + [b[n - 1]];
    }
  }

  /** Right-aligning in a zeroed buffer does not change the value read. */
  lemma {:induction false} LeadingZeros(k: nat, b: seq<u8>)
    ensures FromBigEndian(Zeros(k) + b) == FromBigEndian(b)
    decreases |b|
  {
    if b == [] {
      ZerosValue(k);
      assert Zeros(k) + b == Zeros(k);
    } else {
      var n := |b|;
      assert (Zeros(k) + b)[..k + n - 1] == Zeros(k) + b[..n - 1];
      LeadingZeros(k, b[..n - 1]);
    }
  }

  lemma {:induction false} ZerosValue(k: nat)
    ensures FromBigEndian(Zeros(k)) == 0
  {
    if k > 0 {
      assert Zeros(k)[..k - 1] == Zeros(k - 1);
      ZerosValue(k - 1);
    }
  }

  /** Splitting a big-endian string: the high `a` bytes encode `x` shifted down
      by `b` bytes. */
  lemma {:induction false} BigEndianSplit(x: int, a: nat, b: nat)
    ensures BigEndian(x, a + b) == BigEndian(x / Pow256(b), a) + BigEndian(x, b)
    decreases b
  {
    if b > 0 {
      var p := Pow256(b - 1);
      var y := x / 256;
      var hi := BigEndian(y / p, a);
      var lo := BigEndian(y, b - 1);
      var last := [x % 256];
      assert BigEndian(x, a + b) == hi + lo + last by {
        BigEndianSplit(y, a, b - 1);
      }
      assert hi == BigEndian(x / Pow256(b), a) by {
        DivByteThen(x, p);
      }
      assert hi + lo + last == hi + BigEndian(x, b);
    }
  }

  /** Only the low `n` bytes of a number show in its `n`-byte encoding. */
  lemma BigEndianMod(x: nat, n: nat)
    ensures BigEndian(x % Pow256(n), n) == BigEndian(x, n)
  {
    BigEndianRoundTrip(x, n);
    FromBigEndianRoundTrip(BigEndian(x, n));
  }

  /** Scaling by `m` carries the remainder modulo `k` to the remainder
      modulo `k * m`. */
  lemma MulMod(val: nat, k: nat, m: nat)
    requires k > 0 && m > 0
    ensures (val * m) % (k * m) == (val % k) * m
  {
    var q, r := val / k, val % k;
    assert val * m == (k * m) * q + r * m by {
      assert val == k * q + r;
    }
    assert r * m < k * m by {
      MulLe(r, k - 1, m);
    }
    DivModUnique(val * m, k * m, q, r * m);
  }

  /** Shifting `val` up by `s` bytes in a word of `len + s` bytes keeps its
      low `len` bytes, which shifting down again recovers. */
  lemma ShiftDown(val: nat, len: nat, s: nat)
    ensures (val * Pow256(s)) % Pow256(len + s) / Pow256(s) == val % Pow256(len)
  {
    var m, k := Pow256(s), Pow256(len);
    Pow256Add(len, s);
    MulMod(val, k, m);
    DivModUnique((val % k) * m, m, val % k, 0);
  }

  /** The data bytes of a write are the `len` low-order bytes of `val`, most
      significant first: shifting `val` to the top of the word and keeping the
      first `len` bytes of it drops exactly its high bytes. */
  lemma WriteFrameLayout(reg: u16, len: nat, val: u32)
    requires len <= 4
    ensures WriteFrame(reg, len, val) == BigEndian(reg, 2) + BigEndian(val, len)
  {
    var s := 4 - len;
    var y := ShiftedWord(val, len);
    assert Pow256(len + s) == 0x1_0000_0000;
    ShiftDown(val, len, s);
    BigEndianSplit(y, len, s);
    BigEndianMod(val, len);
    assert BigEndian(y, 4) == BigEndian(val, len) + BigEndian(y, s);
    var w := BigEndian(reg, 2) + BigEndian(y, 4);
    assert w[..len + 2] == BigEndian(reg, 2) + BigEndian(val, len);
  }

  /** Round trip: decoding the data bytes of a write the way imx477_read_reg
      assembles a reply gives back `val` reduced to `len` bytes. */
  lemma WriteThenRead(reg: u16, len: nat, val: u32)
    requires len <= 4
    ensures ReadValue(WriteFrame(reg, len, val)[2..]) == val % Pow256(len)
    ensures FromBigEndian(WriteFrame(reg, len, val)[..2]) == reg
  {
    WriteFrameLayout(reg, len, val);
    var f := WriteFrame(reg, len, val);
    assert f[2..] == BigEndian(val, len);
    assert f[..2] == BigEndian(reg, 2);
    BigEndianRoundTrip(val, len);
    BigEndianRoundTrip(reg, 2);
  }

  /** A value that fits in `len` bytes survives the write/read round trip whole. */
  lemma WriteThenReadFits(reg: u16, len: nat, val: u32)
    requires len <= 4 && val < Pow256(len)
    ensures ReadValue(WriteFrame(reg, len, val)[2..]) == val
  {
    WriteThenRead(reg, len, val);
    DivModUnique(val, Pow256(len), 0, val);
  }
}
