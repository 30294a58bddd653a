/** `hexToRGB` of main.js: a `#RRGGBB` colour string to three channels in [0, 1]. */
module HexColor {

  /** A character `parseInt(_, 16)` accepts as a digit. */
  predicate IsHexDigit(c: char) {
    ('0' <= c <= '9') || ('a' <= c <= 'f') || ('A' <= c <= 'F')
  }

  /** The value of one hexadecimal digit. */
  function DigitValue(c: char): (d: nat)
    requires IsHexDigit(c)
    ensures d < 16
  {
    if '0' <= c <= '9' then (c - '0') as nat
    else if 'a' <= c <= 'f' then (c - 'a') as nat + 10
    else (c - 'A') as nat + 10
  }

  predicate AllHexDigits(s: seq<char>) {
    forall i :: 0 <= i < |s| ==> IsHexDigit(s[i])
  }

  /** 16 to the power k: the number of values k hexadecimal digits can write. */
  function Pow16(k: nat): (p: nat)
    ensures p >= 1
  {
    if k == 0 then 1 else 16 * Pow16(k - 1)
  }

  /** `parseInt(s, 16)` on a string of hexadecimal digits: most significant
      digit first, so k digits give a value below 16^k. */
  function ParseHex(s: seq<char>): (v: nat)
    requires AllHexDigits(s)
    ensures v < Pow16(|s|)
  {
    if |s| == 0 then 0
    else
      var prefix, d := ParseHex(s[..|s| - 1]), DigitValue(s[|s| - 1]);
      assert prefix * 16 + d < Pow16(|s| - 1) * 16 by {
        assert prefix + 1 <= Pow16(|s| - 1);
        assert (prefix + 1) * 16 <= Pow16(|s| - 1) * 16;
      }
      prefix * 16 + d
  }

  /** `n >> k` for a value that fits a non-negative 32-bit integer: the
      arithmetic shift halves k times, rounding down each time, so it never
      grows the value and strictly shrinks a positive one. */
  function ShiftRight(n: nat, k: nat): (r: nat)
    ensures r <= n
  {
    if k == 0 then n else ShiftRight(n / 2, k - 1)
  }

  /** `n & 255` for a non-negative 32-bit integer: its low byte, the byte
      that n and b agree on, so n - b is a multiple of 256. */
  function LowByte(n: nat): (b: nat)
    ensures b < 256 && b <= n
  {
    n % 256
  }

  datatype RGB = RGB(r: real, g: real, b: real)

  /** The value of the two-digit pair `hi lo`, a byte. */
  function ByteOf(hi: char, lo: char): (v: nat)
    requires IsHexDigit(hi) && IsHexDigit(lo)
    ensures v < 256
  {
    DigitValue(hi) * 16 + DigitValue(lo)
  }

  /** `hexToRGB(hex)` for `hex` of the form `#RRGGBB` (the first character is
      dropped unread, as `hex.slice(1)` does). */
  function HexToRGB(hex: seq<char>): (c: RGB)
    requires |hex| == 7 && AllHexDigits(hex[1..])
    ensures 0.0 <= c.r <= 1.0 && 0.0 <= c.g <= 1.0 && 0.0 <= c.b <= 1.0
  {
    var bigint := ParseHex(hex[1..]);
    RGB(LowByte(ShiftRight(bigint, 16)) as real / 255.0,
        LowByte(ShiftRight(bigint, 8)) as real / 255.0,
        LowByte(bigint) as real / 255.0)
  }

  // ---------------------------------------------------------------------------
  // Properties

  /** Shifting by a + b is shifting by a, then by b. */
  lemma {:induction false} ShiftRightSplit(n: nat, a: nat, b: nat)
    ensures ShiftRight(n, a + b) == ShiftRight(ShiftRight(n, a), b)
  {
    if a > 0 {
      ShiftRightSplit(n / 2, a - 1, b);
    }
  }

  /** Shifting by 8 divides by 256. */
  lemma ShiftRightByte(n: nat)
    ensures ShiftRight(n, 8) == n / 256
  {
    var n1 := n / 2;
    var n2 := n1 / 2;
    var n3 := n2 / 2;
    var n4 := n3 / 2;
    var n5 := n4 / 2;
    var n6 := n5 / 2;
    var n7 := n6 / 2;
    assert ShiftRight(n7, 1) == n7 / 2;
    assert ShiftRight(n6, 2) == ShiftRight(n7, 1);
    assert ShiftRight(n5, 3) == ShiftRight(n6, 2);
    assert ShiftRight(n4, 4) == ShiftRight(n5, 3);
    assert ShiftRight(n3, 5) == ShiftRight(n4, 4);
    assert ShiftRight(n2, 6) == ShiftRight(n3, 5);
    assert ShiftRight(n1, 7) == ShiftRight(n2, 6);
  }

  /** Shifting right by 8 and by 16 divides by 256 and by 65536. */
  lemma ShiftRightBytes(n: nat)
    ensures ShiftRight(n, 8) == n / 256
    ensures ShiftRight(n, 16) == n / 65536
  {
    ShiftRightByte(n);
    ShiftRightSplit(n, 8, 8);
    ShiftRightByte(n / 256);
  }

  /** Six digits read as three bytes: the parsed number is
      65536 RR + 256 GG + BB. */
  lemma ParseSix(s: seq<char>)
    requires |s| == 6 && AllHexDigits(s)
    ensures ParseHex(s) == 65536 * ByteOf(s[0], s[1]) + 256 * ByteOf(s[2], s[3]) + ByteOf(s[4], s[5])
  {
    ParseHexSnoc(s, 0);
    ParseHexSnoc(s, 1);
    ParseHexSnoc(s, 2);
    ParseHexSnoc(s, 3);
    ParseHexSnoc(s, 4);
    ParseHexSnoc(s, 5);
    assert s[..6] == s;
  }

  /** `parseInt` reads one more digit: the value so far times 16 plus the digit. */
  lemma ParseHexSnoc(s: seq<char>, n: nat)
    requires n < |s| && AllHexDigits(s)
    ensures ParseHex(s[..n + 1]) == ParseHex(s[..n]) * 16 + DigitValue(s[n])
  {
    assert s[..n + 1][..n] == s[..n];
  }

  /** The three masked bytes of a 24-bit number recombine to the number. */
  lemma BytesRecombine(n: nat)
    requires n < 0x100_0000
    ensures 65536 * LowByte(ShiftRight(n, 16)) + 256 * LowByte(ShiftRight(n, 8)) + LowByte(n) == n
  {
    ShiftRightBytes(n);
    var hi, mid := n / 65536, n / 256;
    assert n == 256 * mid + n % 256;
    assert mid == 256 * (mid / 256) + mid % 256;
    assert mid / 256 == hi && hi < 256;
  }

  /** Reading the bytes back out of 65536 a + 256 b + c gives a, b and c. */
  lemma ByteExtraction(a: nat, b: nat, c: nat)
    requires a < 256 && b < 256 && c < 256
    ensures var n := 65536 * a + 256 * b + c;
      LowByte(ShiftRight(n, 16)) == a && LowByte(ShiftRight(n, 8)) == b && LowByte(n) == c
  {
    var n := 65536 * a + 256 * b + c;
    ShiftRightBytes(n);
    assert n / 256 == 256 * a + b && n % 256 == c;
    assert n / 65536 == a;
  }

  /** Each channel is its digit pair's byte value over 255: r = RR / 255,
      g = GG / 255, b = BB / 255. */
  lemma HexToRGBChannels(hex: seq<char>)
    requires |hex| == 7 && AllHexDigits(hex[1..])
    ensures HexToRGB(hex) == RGB(ByteOf(hex[1], hex[2]) as real / 255.0,
                                 ByteOf(hex[3], hex[4]) as real / 255.0,
                                 ByteOf(hex[5], hex[6]) as real / 255.0)
  {
    var s := hex[1..];
    ParseSix(s);
    ByteExtraction(ByteOf(s[0], s[1]), ByteOf(s[2], s[3]), ByteOf(s[4], s[5]));
  }

  /** Every channel lies in [0, 1]. */
  lemma HexToRGBInRange(hex: seq<char>)
    requires |hex| == 7 && AllHexDigits(hex[1..])
    ensures var c := HexToRGB(hex);
      0.0 <= c.r <= 1.0 && 0.0 <= c.g <= 1.0 && 0.0 <= c.b <= 1.0
  {
  }

  /** Black and white. */
  lemma HexToRGBExtremes()
    ensures HexToRGB("#000000") == RGB(0.0, 0.0, 0.0)
    ensures HexToRGB("#ffffff") == RGB(1.0, 1.0, 1.0)
    ensures HexToRGB("#FFFFFF") == RGB(1.0, 1.0, 1.0)
  {
    HexToRGBOfPair("#000000", '0');
    HexToRGBOfPair("#ffffff", 'f');
    HexToRGBOfPair("#FFFFFF", 'F');
  }

  /** A colour written with one repeated digit has the same value in every channel. */
  lemma HexToRGBOfPair(hex: seq<char>, d: char)
    requires IsHexDigit(d) && hex == ['#', d, d, d, d, d, d]
    ensures HexToRGB(hex) == RGB(ByteOf(d, d) as real / 255.0, ByteOf(d, d) as real / 255.0, ByteOf(d, d) as real / 255.0)
  {
    assert AllHexDigits(hex[1..]);
    HexToRGBChannels(hex);
  }
}
