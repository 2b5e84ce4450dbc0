/** `seededRandom`: a linear congruential generator whose state is a JavaScript number.
    Each call computes `(seed * 1103515245 + 12345) & 0x7fffffff` in double arithmetic
    and returns the new state divided by 0x7fffffff. */
module Prng {
  import opened JsSemantics

  const Multiplier: int := 1103515245
  const Increment: int := 12345
  const StateMask: int := 0x7fff_ffff

  /** One step of the state. The product and the sum are each rounded to a double (the
      product exceeds 2^53 for seeds above 8162278); `& 0x7fffffff` applies ToInt32 and
      keeps the low 31 bits, which for a non-negative integer is a reduction mod 2^31. */
  function NextSeed(seed: nat): (s: nat)
    ensures s < StateMask
  {
    var t := RoundToDouble(RoundToDouble(seed * Multiplier) + Increment);
    NextSeedNotMask(seed);
    t % TwoTo31
  }

  /** The only residue that maps to 2^31 - 1 is 230538014, whose product is far above
      2^53; every state above 2^53 is even, and 2^31 - 1 is odd. */
  lemma NextSeedNotMask(seed: nat)
    ensures RoundToDouble(RoundToDouble(seed * Multiplier) + Increment) % TwoTo31 != StateMask
  {
    var p := RoundToDouble(seed * Multiplier);
    var t := RoundToDouble(p + Increment);
    if p + Increment >= TwoTo53 {
      EvenResidue(t);
    } else if t % TwoTo31 == StateMask {
      assert seed * Multiplier < TwoTo53;
      assert t == seed * Multiplier + Increment;
      ExactStepPreimage(seed);
    }
  }

  /** An even number is still even modulo 2^31. */
  lemma EvenResidue(t: nat)
    requires t % 2 == 0
    ensures t % TwoTo31 != StateMask
  {
    var k := t / TwoTo31;
    assert t == k * TwoTo31 + t % TwoTo31;
  }

  /** With exact arithmetic the step hits 2^31 - 1 only from seeds congruent to
      230538014; multiplying by the inverse 1857678181 of the multiplier shows it. */
  lemma ExactStepPreimage(seed: nat)
    requires (seed * Multiplier + Increment) % TwoTo31 == StateMask
    ensures seed % TwoTo31 == 230538014
  {
    var k := (seed * Multiplier + Increment) / TwoTo31;
    assert seed * Multiplier + Increment == StateMask + k * TwoTo31;
    // Multiplier * 1857678181 == 1 + 954594553 * 2^31
    var inv := 1857678181;
    assert seed * Multiplier * inv == seed + seed * 954594553 * TwoTo31;
    assert seed == (StateMask - Increment) * inv + (k * inv - seed * 954594553) * TwoTo31;
    var j := k * inv - seed * 954594553;
    assert (StateMask - Increment) * inv == 230538014 + 1857667501 * TwoTo31;
    assert seed == 230538014 + (j + 1857667501) * TwoTo31;
  }

  /** The value a call returns for the state it leaves behind. */
  function Unit(seed: nat): (r: real)
    requires seed < StateMask
    ensures 0.0 <= r < 1.0
  {
    seed as real / StateMask as real
  }

  /** The state after k calls on a generator created with seed s0. */
  function SeedAfter(s0: nat, k: nat): (s: nat)
    ensures k > 0 ==> s < StateMask
    ensures k == 0 ==> s == s0
  {
    if k == 0 then s0 else NextSeed(SeedAfter(s0, k - 1))
  }

  /** The value of the k-th call (k >= 1) on a generator created with seed s0. */
  function Draw(s0: nat, k: nat): (r: real)
    requires k >= 1
    ensures 0.0 <= r < 1.0
  {
    Unit(SeedAfter(s0, k))
  }

  /** The values of the first n calls. */
  function Draws(s0: nat, n: nat): (rs: seq<real>)
    ensures |rs| == n
    ensures forall i :: 0 <= i < n ==> rs[i] == Draw(s0, i + 1)
  {
    if n == 0 then [] else Draws(s0, n - 1) + [Draw(s0, n)]
  }

  /** The closure `seededRandom(seed)` returns, with its captured `seed`. The ghost
      fields record the seed it was created with and how many calls it has answered. */
  class SeededRandom {
    var seed: nat
    ghost const origin: nat
    ghost var calls: nat

    /** The state is the one reached after `calls` steps from `origin`. */
    ghost predicate Valid()
      reads this
    {
      seed == SeedAfter(origin, calls)
    }

    constructor(seed0: nat)
      ensures seed == seed0 && origin == seed0 && calls == 0
      ensures Valid()
    {
      seed := seed0;
      origin := seed0;
      calls := 0;
    }

    method Next() returns (r: real)
      requires Valid()
      modifies this
      ensures seed == NextSeed(old(seed))
      ensures r == Unit(seed)
      ensures 0.0 <= r < 1.0
      ensures calls == old(calls) + 1 && Valid()
      ensures r == Draw(origin, calls)
    {
      seed := NextSeed(seed);
      calls := calls + 1;
      r := seed as real / StateMask as real;
    }
  }

  /** Running k calls and then j more is running k + j calls. */
  lemma {:induction false} SeedAfterAdd(s0: nat, k: nat, j: nat)
    ensures SeedAfter(SeedAfter(s0, k), j) == SeedAfter(s0, k + j)
    decreases j
  {
    if j > 0 {
      SeedAfterAdd(s0, k, j - 1);
    }
  }

  /** A generator restarted from the state left after k calls continues the sequence. */
  lemma DrawShift(s0: nat, k: nat, j: nat)
    requires j >= 1
    ensures Draw(SeedAfter(s0, k), j) == Draw(s0, k + j)
  {
    SeedAfterAdd(s0, k, j);
  }

  /** Two generators created with the same seed return the same values, call by call:
      the avatar of an address is reproducible. */
  method SameSeedSameSequence(seed0: nat, n: nat) returns (xs: seq<real>, ys: seq<real>)
    ensures xs == ys == Draws(seed0, n)
  {
    var a := new SeededRandom(seed0);
    var b := new SeededRandom(seed0);
    xs, ys := [], [];
    var i := 0;
    while i < n
      invariant 0 <= i <= n
      invariant a.Valid() && b.Valid() && a.calls == b.calls == i
      invariant xs == ys == Draws(seed0, i)
    {
      var x := a.Next();
      var y := b.Next();
      xs, ys := xs + [x], ys + [y];
      i := i + 1;
    }
  }
}
