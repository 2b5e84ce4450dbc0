/** The pieces of JavaScript number and string semantics the avatar engine relies on:
    ToInt32 wrap-around, bitwise XOR on int32 operands, the truncating `%`, ASCII
    `toUpperCase`, the rounding of large integers to IEEE-754 doubles, a string's
    UTF-16 code units, and the decimal text of a non-negative
    integer (template-literal interpolation). */
module JsSemantics {

  const TwoTo31: int := 0x8000_0000
  const TwoTo32: int := 0x1_0000_0000

  predicate IsInt32(x: int) {
    -TwoTo31 <= x < TwoTo31
  }

  /** ECMAScript ToInt32 on an integral number: reduce modulo 2^32 into [-2^31, 2^31). */
  function ToInt32(x: int): (r: int)
    ensures IsInt32(r)
    ensures (r - x) % TwoTo32 == 0
    ensures IsInt32(x) ==> r == x
  {
    var m := x % TwoTo32;
    if m >= TwoTo31 then m - TwoTo32 else m
  }

  /** ECMAScript ToUint32 on an integral number. */
  function ToUint32(x: int): (r: int)
    ensures 0 <= r < TwoTo32
    ensures (r - x) % TwoTo32 == 0
  {
    x % TwoTo32
  }

  /** `a ^ b`: both operands go through ToInt32, the result is a signed 32-bit integer. */
  function Xor32(a: int, b: int): (r: int)
    ensures IsInt32(r)
  {
    BitwiseXor(ToUint32(a), ToUint32(b))
  }

  /** The XOR of two bit patterns, read back as a signed 32-bit integer. */
  function BitwiseXor(u: int, v: int): (r: int)
    ensures IsInt32(r)
  {
    if 0 <= u < TwoTo32 && 0 <= v < TwoTo32 then ToInt32(((u as bv32) ^ (v as bv32)) as int) else 0
  }

  /** ToInt32 only depends on the residue modulo 2^32. */
  lemma ToInt32Congruent(x: int, y: int)
    requires (x - y) % TwoTo32 == 0
    ensures ToInt32(x) == ToInt32(y)
  {
    var k := (x - y) / TwoTo32;
    assert x == y + k * TwoTo32;
    assert x % TwoTo32 == y % TwoTo32;
  }

  /** JavaScript `a % b` for b > 0: the remainder takes the sign of the dividend. */
  function JsRem(a: int, b: int): (r: int)
    requires b > 0
    ensures a >= 0 ==> 0 <= r < b && r == a % b
    ensures a < 0 ==> -b < r <= 0 && r == -((-a) % b)
  {
    if a >= 0 then a % b else -((-a) % b)
  }

  const TwoTo52: int := 0x10_0000_0000_0000
  const TwoTo53: int := 0x20_0000_0000_0000

  /** The spacing of doubles around a non-negative integer x: 1 below 2^53, doubling
      with every binade above. */
  function Ulp(x: nat): (u: nat)
    ensures u >= 1
    ensures x < TwoTo53 <==> u == 1
    ensures x >= TwoTo53 ==> u % 2 == 0 && u * TwoTo52 <= x
    decreases x
  {
    if x < TwoTo53 then 1 else 2 * Ulp(x / 2)
  }

  /** The double nearest to the integer x, ties to the even significand: the value a
      JavaScript number holds after an integer operation whose exact result is x. */
  function RoundToDouble(x: nat): (r: nat)
    ensures x < TwoTo53 ==> r == x
    ensures x >= TwoTo53 ==> r % 2 == 0 && r >= TwoTo53
  {
    var u := Ulp(x);
    var q := x / u;
    var rest := x % u;
    var m := if 2 * rest < u || (2 * rest == u && q % 2 == 0) then q else q + 1;
    EvenMultiple(m, u);
    LargeStaysLarge(x, u, m);
    m * u
  }

  lemma LargeStaysLarge(x: nat, u: nat, m: int)
    requires u == Ulp(x) && m >= x / u
    ensures x >= TwoTo53 ==> m * u >= TwoTo53
  {
    if x >= TwoTo53 {
      QuotientAtLeast(x, u, TwoTo52);
      ProductAtLeast(m, TwoTo52, u);
    }
  }

  lemma QuotientAtLeast(x: nat, u: nat, c: nat)
    requires u > 0 && u * c <= x
    ensures x / u >= c
  {
    var q := x / u;
    assert x < (q + 1) * u by {
      assert x == q * u + x % u;
    }
    if q < c {
      ProductMonotone(q + 1, c, u);
    }
  }

  lemma ProductMonotone(a: int, b: int, u: nat)
    requires a <= b
    ensures a * u <= b * u
  {
  }

  lemma ProductAtLeast(m: int, c: nat, u: nat)
    requires m >= c && u >= 2
    ensures m * u >= 2 * c
  {
    assert m * u >= c * u;
  }

  lemma EvenMultiple(m: int, u: int)
    ensures u % 2 == 0 ==> (m * u) % 2 == 0
  {
    if u % 2 == 0 {
      var v := u / 2;
      assert m * u == (m * v) * 2;
    }
  }

  /** `toUpperCase` restricted to ASCII: a-z become A-Z, everything else is unchanged. */
  function UpperChar(c: char): (u: char)
    ensures !('a' <= u <= 'z')
    ensures !('a' <= c <= 'z') ==> u == c
  {
    if 'a' <= c <= 'z' then (c as int - 32) as char else c
  }

  function UpperAscii(s: string): (r: string)
    ensures |r| == |s|
  {
    seq(|s|, i requires 0 <= i < |s| => UpperChar(s[i]))
  }

  lemma UpperAsciiIdempotent(s: string)
    ensures UpperAscii(UpperAscii(s)) == UpperAscii(s)
  {
  }

  lemma UpperAsciiAppend(a: string, b: string)
    ensures UpperAscii(a + b) == UpperAscii(a) + UpperAscii(b)
  {
  }

  /** The UTF-16 code units of one character: one unit inside the Basic Multilingual
      Plane, a surrogate pair outside it. */
  function Utf16Units(c: char): (us: seq<int>)
    ensures 1 <= |us| <= 2
    ensures forall i :: 0 <= i < |us| ==> 0 <= us[i] < 0x1_0000
    ensures (c as int) < 0x1_0000 ==> us == [c as int]
  {
    if (c as int) < 0x1_0000 then [c as int]
    else
      var v := c as int - 0x1_0000;
      [0xD800 + v / 0x400, 0xDC00 + v % 0x400]
  }

  /** What `str.charCodeAt(i)` sees for i = 0, 1, ..., str.length - 1. */
  function CodeUnits(s: string): (us: seq<int>)
    ensures |s| <= |us| <= 2 * |s|
    ensures forall i :: 0 <= i < |us| ==> 0 <= us[i] < 0x1_0000
  {
    if s == [] then [] else Utf16Units(s[0]) + CodeUnits(s[1..])
  }

  lemma {:induction false} CodeUnitsAppend(a: string, b: string)
    ensures CodeUnits(a + b) == CodeUnits(a) + CodeUnits(b)
  {
    if a == [] {
      assert a + b == b;
    } else {
      assert (a + b)[1..] == a[1..] + b;
      CodeUnitsAppend(a[1..], b);
    }
  }

  function DigitChar(d: int): (c: char)
    requires 0 <= d < 10
    ensures '0' <= c <= '9'
  {
    (48 + d) as char
  }

  /** The decimal text of a non-negative integer, as `${n}` prints it. */
  function NatToString(n: nat): (s: string)
    ensures |s| >= 1
    ensures forall i :: 0 <= i < |s| ==> '0' <= s[i] <= '9'
    ensures n < 10 <==> |s| == 1
    decreases n
  {
    if n < 10 then [DigitChar(n)] else NatToString(n / 10) + [DigitChar(n % 10)]
  }

  /** Different numbers print differently. */
  lemma {:induction false} NatToStringInjective(a: nat, b: nat)
    requires NatToString(a) == NatToString(b)
    ensures a == b
    decreases a
  {
    var s := NatToString(a);
    if a >= 10 && b >= 10 {
      assert s[|s| - 1] == DigitChar(a % 10) && s[|s| - 1] == DigitChar(b % 10);
      assert s[..|s| - 1] == NatToString(a / 10) && s[..|s| - 1] == NatToString(b / 10);
      NatToStringInjective(a / 10, b / 10);
    } else {
      assert a < 10 && b < 10;
      assert s[0] == DigitChar(a) && s[0] == DigitChar(b);
    }
  }
}
