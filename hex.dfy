/**
 * hexToVec3: "#RRGGBB" or "#RGB" to a colour whose components are the
 * bytes of the parsed value divided by 255.
 *
 * The source drops the first character, doubles every digit of a
 * three-character remainder, converts the rest with std::stoul in base 16
 * and stores the result in a 32-bit `unsigned int`. A failed conversion
 * throws; here it is `None`.
 */
module Hex {
  import opened Common

  const Two32: nat := 0x1_0000_0000
  const Two64: nat := 0x1_0000_0000_0000_0000

  predicate IsHexDigit(c: char)
  {
    '0' <= c <= '9' || 'a' <= c <= 'f' || 'A' <= c <= 'F'
  }

  function DigitValue(c: char): (d: nat)
    requires IsHexDigit(c)
    ensures d < 16
  {
    if '0' <= c <= '9' then (c as int - '0' as int)
    else if 'a' <= c <= 'f' then (c as int - 'a' as int) + 10
    else (c as int - 'A' as int) + 10
  }

  /** The length of the run of hex digits at the start of `s`. */
  function HexRun(s: string): (n: nat)
    ensures n <= |s|
    ensures forall k :: 0 <= k < n ==> IsHexDigit(s[k])
    ensures n == |s| || !IsHexDigit(s[n])
  {
    if |s| == 0 || !IsHexDigit(s[0]) then 0 else 1 + HexRun(s[1..])
  }

  predicate AllHex(s: string)
  {
    forall k :: 0 <= k < |s| ==> IsHexDigit(s[k])
  }

  /** The value of a string of hex digits, most significant first. */
  function HexValue(s: string): nat
    requires AllHex(s)
  {
    if |s| == 0 then 0 else 16 * HexValue(s[..|s| - 1]) + DigitValue(s[|s| - 1])
  }

  predicate IsSpace(c: char)
  {
    c == ' ' || c == '\t' || c == '\n' || c == '\r' || c == '\U{0B}' || c == '\U{0C}'
  }

  function LeadingSpaces(s: string): (n: nat)
    ensures n <= |s|
  {
    if |s| == 0 || !IsSpace(s[0]) then 0 else 1 + LeadingSpaces(s[1..])
  }

  /**
   * std::stoul(s, nullptr, 16) narrowed to `unsigned int`: leading white
   * space, then an optional sign, then an optional "0x"/"0X" in front of a
   * digit, then the longest run of hex digits. No digit throws
   * invalid_argument and a value beyond 64 bits throws out_of_range (both
   * `None`); a minus sign negates modulo 2^64; the store keeps the low 32 bits.
   */
  function StoulHex32(s: string): (r: Option<nat>)
    ensures r.Some? ==> r.value < Two32
  {
    var digits := StoulDigits(s);
    var n := HexRun(digits);
    if n == 0 then None
    else
      var v := HexValue(digits[..n]);
      if v >= Two64 then None
      else Some((if StoulNegative(s) then (Two64 - v) % Two64 else v) % Two32)
  }

  /** What follows the white space of `s`. */
  function AfterSpaces(s: string): string
  {
    s[LeadingSpaces(s)..]
  }

  predicate StoulNegative(s: string)
  {
    var t := AfterSpaces(s);
    |t| > 0 && t[0] == '-'
  }

  /** The text strtoul reads digits from: after white space, a sign and a "0x" prefix. */
  function StoulDigits(s: string): string
  {
    var t := AfterSpaces(s);
    var unsigned := if |t| > 0 && (t[0] == '-' || t[0] == '+') then t[1..] else t;
    if |unsigned| >= 3 && unsigned[0] == '0' && (unsigned[1] == 'x' || unsigned[1] == 'X') && IsHexDigit(unsigned[2])
    then unsigned[2..] else unsigned
  }

  /** The "#RGB" short form: a three-character remainder has each digit doubled. */
  function Expand(full: string): (r: string)
    ensures |full| == 3 ==> r == [full[0], full[0], full[1], full[1], full[2], full[2]]
    ensures |full| != 3 ==> r == full
  {
    if |full| == 3 then [full[0], full[0], full[1], full[1], full[2], full[2]] else full
  }

  /** The byte of `v` that starts at bit log2(shift), scaled to [0, 1]. */
  function Channel(v: nat, shift: nat): (c: real)
    requires shift > 0
    ensures 0.0 <= c <= 1.0
  {
    ((v / shift) % 256) as real / 255.0
  }

  /**
   * hexToVec3. An empty string makes `substr(1)` throw; everything else
   * converts what follows the first character.
   */
  function HexToVec3(hex: string): (r: Option<Vec3>)
    ensures r.Some? ==> 0.0 <= r.value.x <= 1.0 && 0.0 <= r.value.y <= 1.0 && 0.0 <= r.value.z <= 1.0
    ensures |hex| <= 1 ==> r.None?
  {
    if |hex| == 0 then None
    else match StoulHex32(Expand(hex[1..])) {
      case None => None
      case Some(v) => Some(Vec3(Channel(v, 65536), Channel(v, 256), Channel(v, 1)))
    }
  }

  /** The byte written by the two hex digits `hi`, `lo`. */
  function ByteOf(hi: char, lo: char): (b: nat)
    requires IsHexDigit(hi) && IsHexDigit(lo)
    ensures b < 256
  {
    16 * DigitValue(hi) + DigitValue(lo)
  }

  lemma SixDigitValue(s: string)
    requires |s| == 6 && AllHex(s)
    ensures HexValue(s) == ByteOf(s[0], s[1]) * 65536 + ByteOf(s[2], s[3]) * 256 + ByteOf(s[4], s[5])
  {
    forall k | 1 <= k <= 6
      ensures HexValue(s[..k]) == 16 * HexValue(s[..k - 1]) + DigitValue(s[k - 1])
    {
      assert s[..k][..k - 1] == s[..k - 1];
    }
    assert s[..6] == s;
    var d0, d1, d2, d3, d4, d5 := DigitValue(s[0]), DigitValue(s[1]), DigitValue(s[2]), DigitValue(s[3]), DigitValue(s[4]), DigitValue(s[5]);
    assert HexValue(s[..0]) == 0;
    assert HexValue(s[..2]) == 16 * d0 + d1;
    assert HexValue(s[..4]) == (16 * d0 + d1) * 256 + 16 * d2 + d3;
  }

  /** A plain run of digits converts to its value, narrowed to 32 bits. */
  lemma PlainDigits(s: string)
    requires |s| > 0 && AllHex(s)
    ensures StoulHex32(s) == if HexValue(s) >= Two64 then None else Some(HexValue(s) % Two32)
  {
    assert !IsSpace(s[0]) && s[0] != '-' && s[0] != '+';
    assert AfterSpaces(s) == s by { assert LeadingSpaces(s) == 0; assert s[0..] == s; }
    assert !(|s| >= 3 && s[0] == '0' && (s[1] == 'x' || s[1] == 'X'));
    assert StoulDigits(s) == s;
    assert !StoulNegative(s);
    HexRunAll(s);
    assert s[..|s|] == s;
  }

  lemma {:induction false} HexRunAll(s: string)
    requires AllHex(s)
    ensures HexRun(s) == |s|
  {
    if |s| > 0 {
      HexRunAll(s[1..]);
    }
  }

  lemma BytesOfValue(b0: nat, b1: nat, b2: nat)
    requires b0 < 256 && b1 < 256 && b2 < 256
    ensures ((b0 * 65536 + b1 * 256 + b2) / 65536) % 256 == b0
    ensures ((b0 * 65536 + b1 * 256 + b2) / 256) % 256 == b1
    ensures ((b0 * 65536 + b1 * 256 + b2) / 1) % 256 == b2
  {
    var v := b0 * 65536 + b1 * 256 + b2;
    assert v == b0 * 65536 + (b1 * 256 + b2) && b1 * 256 + b2 < 65536;
    assert v / 65536 == b0;
    assert v == (b0 * 256 + b1) * 256 + b2;
    assert v / 256 == b0 * 256 + b1;
    assert (b0 * 256 + b1) % 256 == b1;
    assert v % 256 == b2;
  }

  /** "#RRGGBB" gives (RR, GG, BB) / 255, whatever the first character is. */
  lemma {:induction false} LongForm(hex: string)
    requires |hex| == 7 && AllHex(hex[1..])
    ensures HexToVec3(hex) == Some(Vec3(
      ByteOf(hex[1], hex[2]) as real / 255.0,
      ByteOf(hex[3], hex[4]) as real / 255.0,
      ByteOf(hex[5], hex[6]) as real / 255.0))
  {
    var s := hex[1..];
    assert s[0] == hex[1] && s[1] == hex[2] && s[2] == hex[3] && s[3] == hex[4] && s[4] == hex[5] && s[5] == hex[6];
    assert Expand(s) == s;
    var v := SixDigitsConvert(s);
    ConvertedColor(hex, v);
    SameColor(HexToVec3(hex), v,
      ByteOf(hex[1], hex[2]) as real / 255.0,
      ByteOf(hex[3], hex[4]) as real / 255.0,
      ByteOf(hex[5], hex[6]) as real / 255.0);
  }

  lemma SameColor(c: Option<Vec3>, v: nat, r0: real, r1: real, r2: real)
    requires c == Some(Vec3(Channel(v, 65536), Channel(v, 256), Channel(v, 1)))
    requires Channel(v, 65536) == r0 && Channel(v, 256) == r1 && Channel(v, 1) == r2
    ensures c == Some(Vec3(r0, r1, r2))
  {
  }

  /** Whatever converts after the first character gives the colour of its three low bytes. */
  lemma ConvertedColor(hex: string, v: nat)
    requires |hex| >= 1 && StoulHex32(Expand(hex[1..])) == Some(v)
    ensures HexToVec3(hex) == Some(Vec3(Channel(v, 65536), Channel(v, 256), Channel(v, 1)))
  {
  }

  /** Six digits convert to the value whose bytes they spell. */
  lemma SixDigitsConvert(s: string) returns (v: nat)
    requires |s| == 6 && AllHex(s)
    ensures StoulHex32(s) == Some(v)
    ensures Channel(v, 65536) == ByteOf(s[0], s[1]) as real / 255.0
    ensures Channel(v, 256) == ByteOf(s[2], s[3]) as real / 255.0
    ensures Channel(v, 1) == ByteOf(s[4], s[5]) as real / 255.0
  {
    PlainDigits(s);
    SixDigitValue(s);
    v := HexValue(s);
    ChannelsOfBytes(ByteOf(s[0], s[1]), ByteOf(s[2], s[3]), ByteOf(s[4], s[5]), v);
  }

  lemma ChannelsOfBytes(b0: nat, b1: nat, b2: nat, v: nat)
    requires b0 < 256 && b1 < 256 && b2 < 256 && v == b0 * 65536 + b1 * 256 + b2
    ensures v < Two64 && v % Two32 == v
    ensures Channel(v, 65536) == b0 as real / 255.0
    ensures Channel(v, 256) == b1 as real / 255.0
    ensures Channel(v, 1) == b2 as real / 255.0
  {
    BytesOfValue(b0, b1, b2);
  }

  /** "#RGB" reads as "#RRGGBB". */
  lemma ShortFormDoubles(hex: string)
    requires |hex| == 4
    ensures HexToVec3(hex) == HexToVec3([hex[0], hex[1], hex[1], hex[2], hex[2], hex[3], hex[3]])
  {
    var long := [hex[0], hex[1], hex[1], hex[2], hex[2], hex[3], hex[3]];
    assert Expand(hex[1..]) == long[1..] == Expand(long[1..]);
  }

  /** In "#RGB" each component is 17 times its digit, over 255. */
  lemma {:induction false} ShortForm(hex: string)
    requires |hex| == 4 && AllHex(hex[1..])
    ensures HexToVec3(hex) == Some(Vec3(
      (17 * DigitValue(hex[1])) as real / 255.0,
      (17 * DigitValue(hex[2])) as real / 255.0,
      (17 * DigitValue(hex[3])) as real / 255.0))
  {
    var a, b, c := hex[1], hex[2], hex[3];
    assert hex[1..] == [a, b, c];
    var v := DoubledDigits(a, b, c);
    ConvertedColor(hex, v);
    SameColor(HexToVec3(hex), v,
      (17 * DigitValue(hex[1])) as real / 255.0,
      (17 * DigitValue(hex[2])) as real / 255.0,
      (17 * DigitValue(hex[3])) as real / 255.0);
  }

  lemma DoubledDigits(a: char, b: char, c: char) returns (v: nat)
    requires IsHexDigit(a) && IsHexDigit(b) && IsHexDigit(c)
    ensures StoulHex32([a, a, b, b, c, c]) == Some(v)
    ensures Channel(v, 65536) == (17 * DigitValue(a)) as real / 255.0
    ensures Channel(v, 256) == (17 * DigitValue(b)) as real / 255.0
    ensures Channel(v, 1) == (17 * DigitValue(c)) as real / 255.0
  {
    var full := [a, a, b, b, c, c];
    assert AllHex(full);
    v := SixDigitsConvert(full);
    assert ByteOf(a, a) == 17 * DigitValue(a);
    assert ByteOf(b, b) == 17 * DigitValue(b);
    assert ByteOf(c, c) == 17 * DigitValue(c);
  }

  /** Text that starts with neither a digit, white space, a sign nor a digit-led prefix does not convert. */
  lemma {:induction false} NonHexFails(hex: string)
    requires |hex| >= 2 && |hex| != 4
    requires !IsHexDigit(hex[1]) && !IsSpace(hex[1]) && hex[1] != '-' && hex[1] != '+'
    ensures HexToVec3(hex) == None
  {
    var s := hex[1..];
    assert Expand(s) == s;
    assert AfterSpaces(s) == s by { assert LeadingSpaces(s) == 0; assert s[0..] == s; }
    assert StoulDigits(s) == s;
    assert HexRun(s) == 0;
  }
}
