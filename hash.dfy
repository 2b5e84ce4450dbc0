/** `hashString`: the DJB2-xor hash of a string's UTF-16 code units with JavaScript's
    int32 wrap-around, made non-negative by `Math.abs` at the end. */
module AvatarHash {
  import opened JsSemantics

  const HashSeed: int := 5381

  /** One round: `hash = ((hash << 5) + hash) ^ code`. The shift works on ToInt32(hash)
      and wraps; the addition is exact; the XOR converts its operands with ToInt32. */
  function Mix(h: int, code: int): (r: int)
    ensures IsInt32(r)
  {
    Xor32(ToInt32(ToInt32(h) * 32) + h, code)
  }

  /** The accumulator after mixing in the code units `us`, starting from `h0`. */
  function HashFrom(h0: int, us: seq<int>): (r: int)
    ensures us != [] ==> IsInt32(r)
    ensures us == [] ==> r == h0
  {
    if us == [] then h0 else Mix(HashFrom(h0, us[..|us| - 1]), us[|us| - 1])
  }

  function Abs(x: int): nat {
    if x < 0 then -x else x
  }

  /** The value `hashString(str)` returns. */
  function Hash(s: string): (r: nat)
    ensures r <= TwoTo31
  {
    Abs(HashFrom(HashSeed, CodeUnits(s)))
  }

  /** The loop of `hashString`, one code unit at a time. */
  method HashString(s: string) returns (h: nat)
    ensures h == Hash(s)
  {
    var units := CodeUnits(s);
    var acc := HashSeed;
    var i := 0;
    while i < |units|
      invariant 0 <= i <= |units|
      invariant acc == HashFrom(HashSeed, units[..i])
    {
      HashFromSnoc(HashSeed, units, i);
      acc := Mix(acc, units[i]);
      i := i + 1;
    }
    assert units[..|units|] == units;
    h := Abs(acc);
  }

  lemma HashFromSnoc(h0: int, us: seq<int>, i: int)
    requires 0 <= i < |us|
    ensures HashFrom(h0, us[..i + 1]) == Mix(HashFrom(h0, us[..i]), us[i])
  {
    assert us[..i + 1][..i] == us[..i];
  }

  /** The hash of the empty string is the start value. */
  lemma HashOfEmpty()
    ensures Hash("") == 5381
  {
  }

  /** The hash reaches 2^31 exactly when the signed accumulator is -2^31, which
      `Math.abs` cannot fold into the int32 range. */
  lemma HashTopValue(s: string)
    ensures Hash(s) == TwoTo31 <==> HashFrom(HashSeed, CodeUnits(s)) == -TwoTo31
  {
  }

  /** The shift-and-add of one round is multiplication by 33, wrapped to int32. */
  lemma MixMultipliesBy33(h: int, code: int)
    requires IsInt32(h)
    ensures Mix(h, code) == Xor32(33 * h, code)
  {
    var p := ToInt32(h * 32);
    assert (p + h) - 33 * h == p - h * 32;
    ModEqualFromCongruent(p + h, 33 * h);
    Xor32Residue(p + h, 33 * h, code);
  }

  lemma ModEqualFromCongruent(x: int, y: int)
    requires (x - y) % TwoTo32 == 0
    ensures x % TwoTo32 == y % TwoTo32
  {
    var k := (x - y) / TwoTo32;
    assert x == y + k * TwoTo32;
  }

  lemma Xor32Residue(x: int, y: int, c: int)
    requires x % TwoTo32 == y % TwoTo32
    ensures Xor32(x, c) == Xor32(y, c)
  {
    assert ToUint32(x) == ToUint32(y);
  }

  /** Hashing a concatenation continues from the accumulator of the first part. */
  lemma {:induction false} HashFromConcat(h0: int, a: seq<int>, b: seq<int>)
    ensures HashFrom(h0, a + b) == HashFrom(HashFrom(h0, a), b)
    decreases |b|
  {
    if b == [] {
      assert a + b == a;
    } else {
      var b' := b[..|b| - 1];
      assert (a + b)[..|a + b| - 1] == a + b';
      HashFromConcat(h0, a, b');
    }
  }

  /** The hash of `s + t` is the hash of `t` started from the (signed) accumulator of `s`. */
  lemma HashOfConcat(s: string, t: string)
    ensures Hash(s + t) == Abs(HashFrom(HashFrom(HashSeed, CodeUnits(s)), CodeUnits(t)))
  {
    CodeUnitsAppend(s, t);
    HashFromConcat(HashSeed, CodeUnits(s), CodeUnits(t));
  }

  /** A one-character string in the Basic Multilingual Plane hashes to |(5381 * 33) ^ code|. */
  lemma HashOfOneChar(c: char)
    requires (c as int) < 0x1_0000
    ensures Hash([c]) == Abs(Xor32(177573, c as int))
  {
    assert CodeUnits([c]) == [c as int] by {
      assert [c][1..] == [];
    }
    assert HashFrom(HashSeed, [c as int]) == Mix(5381, c as int) by {
      assert [c as int][..0] == [];
    }
    MixMultipliesBy33(5381, c as int);
  }
}
