/**
 * The Java primitive arithmetic the converter relies on, written out over unbounded
 * integers and reals: the narrowing conversions of JLS 5.1.3, the unsigned shift and the
 * byte split of a little-endian short. IEEE rounding of finite doubles is not modelled.
 */
module JavaNum {

  const IntMin: int := -0x8000_0000
  const IntMax: int := 0x7FFF_FFFF
  const ShortMin: int := -0x8000
  const ShortMax: int := 0x7FFF

  /** Double.MIN_VALUE is 2^-1074, the smallest positive double. */
  const TwoPow1074: int := 202402253307310618352495346718917307049556649764142118356901358027430339567995346891960383701437124495187077864316811911389808737385793476867013399940738509921517424276566361364466907742093216341239767678472745068562007483424692698618103355649159556340810056512358769552333414615230502532186327508646006263307707741093494784
  const DoubleMinValue: real := 1.0 / (TwoPow1074 as real)
  /** Double.MAX_VALUE is (2^53 - 1) * 2^971. */
  const DoubleMaxValue: real := 179769313486231570814527423731704356798070567525844996598917476803157260780028538760589558632766878171540458953514382464234321326889464182768467546703537516986049910576551282076245490090389328944075868508455133942304583236903222948165808559332123348274797826204144723168738177180919299881250404026184124858368.0

  /** A Java double: a finite value, or one of the special values a division by zero produces. */
  datatype Double = Finite(value: real) | PosInf | NegInf | NaN

  /** The IEEE quotient a / b of two finite doubles. */
  function Quotient(a: real, b: real): (q: Double)
    ensures q.Finite? <==> b != 0.0
    ensures q.Finite? ==> q.value * b == a
    ensures q == NaN <==> a == 0.0 && b == 0.0
  {
    if b != 0.0 then Finite(a / b)
    else if a > 0.0 then PosInf
    else if a < 0.0 then NegInf
    else NaN
  }

  /** d + c for a finite constant c: infinities and NaN absorb it. */
  function Plus(d: Double, c: real): (s: Double)
    ensures s.Finite? <==> d.Finite?
    ensures s.Finite? ==> s.value - c == d.value
  {
    match d
    case Finite(v) => Finite(v + c)
    case _ => d
  }

  /** Rounding toward zero, as Java's cast from a floating-point value does. */
  function TruncateTowardZero(r: real): (i: int)
    ensures r >= 0.0 ==> 0 <= i && i as real <= r < i as real + 1.0
    ensures r < 0.0 ==> i <= 0 && i as real - 1.0 < r <= i as real
  {
    if r >= 0.0 then r.Floor else -((-r).Floor)
  }

  /** (int) d: NaN becomes 0, other values are truncated toward zero and saturate at the int bounds. */
  function DoubleToInt(d: Double): (i: int)
    ensures IntMin <= i <= IntMax
    ensures d == NaN ==> i == 0
    ensures d.Finite? && IntMin as real <= d.value <= IntMax as real ==> i == TruncateTowardZero(d.value)
  {
    match d
    case NaN => 0
    case PosInf => IntMax
    case NegInf => IntMin
    case Finite(r) =>
      var t := TruncateTowardZero(r);
      if t < IntMin then IntMin else if t > IntMax then IntMax else t
  }

  /** (short) i: the low 16 bits of i, read in two's complement. */
  function IntToShort(i: int): (s: int)
    ensures ShortMin <= s <= ShortMax
    ensures (i - s) % 0x1_0000 == 0
    ensures ShortMin <= i <= ShortMax ==> s == i
  {
    (i + 0x8000) % 0x1_0000 - 0x8000
  }

  /** (byte) i: the low 8 bits of i, read in two's complement. */
  function IntToByte(i: int): (b: int)
    ensures -0x80 <= b <= 0x7F
    ensures (i - b) % 0x100 == 0
    ensures -0x80 <= i <= 0x7F ==> b == i
  {
    (i + 0x80) % 0x100 - 0x80
  }

  /** The 32 bits of a Java int, read as an unsigned number. */
  function Unsigned32(i: int): (u: int)
    ensures 0 <= u < 0x1_0000_0000
    ensures (u - i) % 0x1_0000_0000 == 0
  {
    i % 0x1_0000_0000
  }

  /** i >>> 16 on a Java int. */
  function UnsignedShiftRight16(i: int): (r: int)
    ensures 0 <= r < 0x1_0000
    ensures 0 <= i <= IntMax ==> r == i / 0x1_0000
  {
    Unsigned32(i) / 0x1_0000
  }

  /** i >>> 8 on a Java int. */
  function UnsignedShiftRight8(i: int): (r: int)
    ensures 0 <= r < 0x100_0000
  {
    Unsigned32(i) / 0x100
  }

  /** The bit pattern of one Java byte, 0..255 (Java reads the same bits as -128..127). */
  type byte = b: int | 0 <= b < 0x100

  /** (byte)(value & 0x0FF), the first byte writeShort stores. */
  function LowByte(value: int): byte
  {
    value % 0x100
  }

  /** (byte)(value >>> 8), the second byte writeShort stores. */
  function HighByte(value: int): byte
  {
    UnsignedShiftRight8(value) % 0x100
  }

  /** (short)((b0 & 0xFF) | (b1 << 8)): how a reader takes a little-endian short back out of two bytes. */
  function DecodeShort(b0: byte, b1: byte): int
  {
    IntToShort(b0 + b1 * 0x100)
  }

  /** writeShort loses nothing: the two bytes it stores decode to the short it was given. */
  lemma ShortRoundTrip(s: int)
    requires ShortMin <= s <= ShortMax
    ensures DecodeShort(LowByte(s), HighByte(s)) == s
  {
    var q, r := s / 0x100, s % 0x100;
    assert s == q * 0x100 + r;
    if s >= 0 {
      assert Unsigned32(s) == s;
      assert HighByte(s) == q;
    } else {
      assert Unsigned32(s) == s + 0x1_0000_0000;
      assert UnsignedShiftRight8(s) == q + 0x100_0000;
      assert HighByte(s) == q + 0x100;
      assert LowByte(s) + HighByte(s) * 0x100 == s + 0x1_0000;
    }
  }

  /** The byte a one-byte voxel is stored as gives back the signed byte value. */
  lemma ByteRoundTrip(b: int)
    requires -0x80 <= b <= 0x7F
    ensures IntToByte(LowByte(b)) == b
  {
    assert (LowByte(b) - b) % 0x100 == 0;
  }
}
