/** `generateLayers`: the layered composition of an avatar. Six groups are drawn back to
    front (nebula clouds, glowing orbs, accent rings, crystals, arcs, stars); every count,
    angle, distance, size, rotation and opacity comes from one generator seeded with the
    hash of the address, and every colour from the palette of one of its characters. */
module Layout {
  import opened JsSemantics
  import opened Alphabet
  import opened Palettes
  import opened AvatarHash
  import opened Prng

  datatype LayerType = Nebula | GlowOrb | Ring | Crystal | Star | Arc

  /** One element of the composition; positions and sizes are in pixels of the
      `size` x `size` canvas, rotations in degrees. */
  datatype LayerElement = LayerElement(
    kind: LayerType,
    x: real,
    y: real,
    size: real,
    rotation: real,
    colors: Palette,
    opacity: real,
    blur: real)

  /** `Math.cos` and `Math.sin`, supplied by the caller. */
  datatype Trig = Trig(cos: real -> real, sin: real -> real)

  const Pi: real := 3.141592653589793

  /** The values of successive calls of a generator: the k-th call returns `rand(k)`. */
  type DrawStream = rand: nat -> real | forall k :: 0.0 <= rand(k) < 1.0
    witness (k: nat) => 0.0

  /** The calls of `seededRandom(s0)`; index 0 is never drawn. */
  function StreamOf(s0: nat): (rand: DrawStream)
    ensures forall k :: k >= 1 ==> rand(k) == Draw(s0, k)
  {
    (k: nat) => if k >= 1 then Draw(s0, k) else 0.0
  }

  /** Everything an element depends on: the normalised characters, the canvas size,
      the trigonometry, the colour lookup and the generator's values. */
  datatype Scene = Scene(chars: string, size: real, trig: Trig, palette: string -> Palette, rand: DrawStream)

  function SceneOf(email: string, size: real, trig: Trig): (sc: Scene)
    ensures sc.chars == Normalize(email) && sc.rand == StreamOf(Hash(email))
    ensures sc.palette == GetCharacterPalette
  {
    Scene(Normalize(email), size, trig, GetCharacterPalette, StreamOf(Hash(email)))
  }

  /** The value of the k-th call of the scene's generator. */
  function R(sc: Scene, k: nat): (r: real)
    ensures 0.0 <= r < 1.0
  {
    sc.rand(k)
  }

  /** `Math.floor(r * n)` for a draw r and a non-negative n. */
  function FloorScaled(r: real, n: nat): (f: int)
    requires 0.0 <= r < 1.0
    ensures n == 0 ==> f == 0
    ensures n > 0 ==> 0 <= f < n
  {
    FloorScaledBounds(r, n);
    (r * n as real).Floor
  }

  lemma FloorScaledBounds(r: real, n: nat)
    requires 0.0 <= r < 1.0
    ensures 0 <= (r * n as real).Floor <= n
    ensures n > 0 ==> (r * n as real).Floor < n
  {
    assert 0.0 <= r * n as real <= n as real by {
      ScaleBelowOne(r, n as real);
    }
    if n > 0 {
      assert r * n as real < n as real by {
        StrictScaleBelowOne(r, n as real);
      }
    }
  }

  lemma ScaleBelowOne(r: real, a: real)
    requires 0.0 <= r <= 1.0 && a >= 0.0
    ensures 0.0 <= r * a <= a
  {
  }

  lemma StrictScaleBelowOne(r: real, a: real)
    requires 0.0 <= r < 1.0 && a > 0.0
    ensures r * a < a
  {
  }

  /** A group count: `base` plus the number of steps 1, 2, ..., spread - 1 that
      `r * spread` reaches. */
  function Count(base: nat, spread: nat, r: real): (n: nat)
    requires 0.0 <= r < 1.0 && spread > 0
    ensures base <= n < base + spread
  {
    base + StepsReached(r * spread as real, spread - 1)
  }

  /** How many of 1, 2, ..., m are at most x. */
  function StepsReached(x: real, m: nat): (c: nat)
    ensures c <= m
  {
    if m == 0 then 0 else StepsReached(x, m - 1) + (if m as real <= x then 1 else 0)
  }

  /** Counting the steps reached is taking the floor, capped at m. */
  lemma {:induction false} StepsReachedFloor(x: real, m: nat)
    requires x >= 0.0
    ensures StepsReached(x, m) == if x.Floor < m then x.Floor else m
  {
    if m > 0 {
      StepsReachedFloor(x, m - 1);
    }
  }

  /** The count is `base + Math.floor(r * spread)`, the expression of `generateLayers`. */
  lemma CountIsFloor(base: nat, spread: nat, r: real)
    requires 0.0 <= r < 1.0 && spread > 0
    ensures Count(base, spread, r) == base + FloorScaled(r, spread)
  {
    FloorScaledBounds(r, spread);
    StepsReachedFloor(r * spread as real, spread - 1);
  }

  /** `chars[idx] || fallback`: an index outside the array gives `undefined`, which is
      replaced by the fallback letter. */
  function Pick(chars: string, idx: int, fallback: char): (s: string)
    ensures |s| == 1
    ensures s[0] == (if 0 <= idx < |chars| then chars[idx] else fallback)
  {
    if 0 <= idx < |chars| then [chars[idx]] else [fallback]
  }

  /** `(a % chars.length)` as an index; for an empty array JavaScript gives NaN, written
      here as -1, which indexes nothing. */
  function ModIndex(a: nat, n: nat): (idx: int)
    ensures n > 0 ==> 0 <= idx < n && idx == a % n
    ensures n == 0 ==> idx < 0
  {
    if n == 0 then -1 else a % n
  }

  predicate IsDraw(r: real) {
    0.0 <= r < 1.0
  }

  /** A nebula cloud from its six draws: character, angle, distance, size, rotation and
      opacity, in the order the object literal evaluates them. */
  function NebulaElement(sc: Scene, rChar: real, rAngle: real, rDist: real, rSize: real, rRot: real, rOpacity: real): (e: LayerElement)
    requires IsDraw(rChar) && IsDraw(rAngle) && IsDraw(rDist) && IsDraw(rSize) && IsDraw(rRot) && IsDraw(rOpacity)
    ensures e.kind == Nebula && e.blur == sc.size * 0.12
    ensures 0.2 <= e.opacity < 0.35 && 0.0 <= e.rotation < 360.0
  {
    var palette := sc.palette(Pick(sc.chars, FloorScaled(rChar, |sc.chars|), 'A'));
    var angle := rAngle * Pi * 2.0;
    var distance := sc.size * 0.1 + rDist * sc.size * 0.2;
    LayerElement(
      Nebula,
      sc.size / 2.0 + sc.trig.cos(angle) * distance,
      sc.size / 2.0 + sc.trig.sin(angle) * distance,
      sc.size * 0.5 + rSize * sc.size * 0.3,
      rRot * 360.0,
      palette,
      0.2 + rOpacity * 0.15,
      sc.size * 0.12)
  }

  /** Glowing orb i of n from its five draws: angle, distance, size, rotation, opacity. */
  function OrbElement(sc: Scene, i: nat, n: nat, rAngle: real, rDist: real, rSize: real, rRot: real, rOpacity: real): (e: LayerElement)
    requires n > 0
    requires IsDraw(rAngle) && IsDraw(rDist) && IsDraw(rSize) && IsDraw(rRot) && IsDraw(rOpacity)
    ensures e.kind == GlowOrb && e.blur == sc.size * 0.02
    ensures 0.85 <= e.opacity < 1.0 && 0.0 <= e.rotation < 360.0
  {
    var palette := sc.palette(Pick(sc.chars, ModIndex(i * 2, |sc.chars|), 'B'));
    var angle := (i as real / n as real) * Pi * 2.0 + rAngle * 0.5;
    var distance := sc.size * 0.15 + rDist * sc.size * 0.12;
    LayerElement(
      GlowOrb,
      sc.size / 2.0 + sc.trig.cos(angle) * distance,
      sc.size / 2.0 + sc.trig.sin(angle) * distance,
      sc.size * 0.12 + rSize * sc.size * 0.08,
      rRot * 360.0,
      palette,
      0.85 + rOpacity * 0.15,
      sc.size * 0.02)
  }

  /** Accent ring i from its two draws: rotation and opacity. */
  function RingElement(sc: Scene, i: nat, rRot: real, rOpacity: real): (e: LayerElement)
    requires IsDraw(rRot) && IsDraw(rOpacity)
    ensures e.kind == Ring && e.blur == 0.0
    ensures 0.6 <= e.opacity < 0.9 && 0.0 <= e.rotation < 360.0
  {
    LayerElement(
      Ring,
      sc.size / 2.0,
      sc.size / 2.0,
      sc.size * 0.2 + i as real * sc.size * 0.12,
      rRot * 360.0,
      sc.palette(Pick(sc.chars, ModIndex(i * 3, |sc.chars|), 'C')),
      0.6 + rOpacity * 0.3,
      0.0)
  }

  /** Crystal i of n, in the colours of the i-th character, from its five draws: angle,
      distance, size, rotation offset, opacity. */
  function CrystalElement(sc: Scene, i: nat, n: nat, rAngle: real, rDist: real, rSize: real, rRot: real, rOpacity: real): (e: LayerElement)
    requires i < n <= |sc.chars|
    requires IsDraw(rAngle) && IsDraw(rDist) && IsDraw(rSize) && IsDraw(rRot) && IsDraw(rOpacity)
    ensures e.kind == Crystal && e.blur == 0.0
    ensures 0.9 <= e.opacity < 1.0
  {
    var angle := (i as real / n as real) * Pi * 2.0 + rAngle * 0.4;
    var distance := sc.size * 0.22 + rDist * sc.size * 0.1;
    LayerElement(
      Crystal,
      sc.size / 2.0 + sc.trig.cos(angle) * distance,
      sc.size / 2.0 + sc.trig.sin(angle) * distance,
      sc.size * 0.06 + rSize * sc.size * 0.04,
      angle * 180.0 / Pi + rRot * 20.0,
      sc.palette([sc.chars[i]]),
      0.9 + rOpacity * 0.1,
      0.0)
  }

  /** Arc i from its three draws: character, rotation offset, opacity. */
  function ArcElement(sc: Scene, i: nat, rChar: real, rRot: real, rOpacity: real): (e: LayerElement)
    requires IsDraw(rChar) && IsDraw(rRot) && IsDraw(rOpacity)
    ensures e.kind == Arc && e.blur == sc.size * 0.005
    ensures 0.7 <= e.opacity < 0.9
    ensures i as real * 90.0 <= e.rotation < i as real * 90.0 + 60.0
  {
    var palette := sc.palette(Pick(sc.chars, FloorScaled(rChar, |sc.chars|), 'D'));
    LayerElement(
      Arc,
      sc.size / 2.0,
      sc.size / 2.0,
      sc.size * 0.25 + i as real * sc.size * 0.08,
      i as real * 90.0 + rRot * 60.0,
      palette,
      0.7 + rOpacity * 0.2,
      sc.size * 0.005)
  }

  /** A star from its six draws, in the order of the nebula's. */
  function StarElement(sc: Scene, rChar: real, rAngle: real, rDist: real, rSize: real, rRot: real, rOpacity: real): (e: LayerElement)
    requires IsDraw(rChar) && IsDraw(rAngle) && IsDraw(rDist) && IsDraw(rSize) && IsDraw(rRot) && IsDraw(rOpacity)
    ensures e.kind == Star && e.blur == sc.size * 0.003
    ensures 0.8 <= e.opacity < 1.0 && 0.0 <= e.rotation < 360.0
  {
    var palette := sc.palette(Pick(sc.chars, FloorScaled(rChar, |sc.chars|), 'E'));
    var angle := rAngle * Pi * 2.0;
    var distance := sc.size * 0.1 + rDist * sc.size * 0.35;
    LayerElement(
      Star,
      sc.size / 2.0 + sc.trig.cos(angle) * distance,
      sc.size / 2.0 + sc.trig.sin(angle) * distance,
      sc.size * 0.015 + rSize * sc.size * 0.015,
      rRot * 360.0,
      palette,
      0.8 + rOpacity * 0.2,
      sc.size * 0.003)
  }

  /** The elements of a scene when k calls of its generator precede them. */
  function NebulaAt(sc: Scene, k: nat): LayerElement {
    NebulaElement(sc, R(sc, k + 1), R(sc, k + 2), R(sc, k + 3), R(sc, k + 4), R(sc, k + 5), R(sc, k + 6))
  }

  function OrbAt(sc: Scene, k: nat, i: nat, n: nat): LayerElement
    requires n > 0
  {
    OrbElement(sc, i, n, R(sc, k + 1), R(sc, k + 2), R(sc, k + 3), R(sc, k + 4), R(sc, k + 5))
  }

  function RingAt(sc: Scene, k: nat, i: nat): LayerElement {
    RingElement(sc, i, R(sc, k + 1), R(sc, k + 2))
  }

  function CrystalAt(sc: Scene, k: nat, i: nat, n: nat): LayerElement
    requires i < n <= |sc.chars|
  {
    CrystalElement(sc, i, n, R(sc, k + 1), R(sc, k + 2), R(sc, k + 3), R(sc, k + 4), R(sc, k + 5))
  }

  function ArcAt(sc: Scene, k: nat, i: nat): LayerElement {
    ArcElement(sc, i, R(sc, k + 1), R(sc, k + 2), R(sc, k + 3))
  }

  function StarAt(sc: Scene, k: nat): LayerElement {
    StarElement(sc, R(sc, k + 1), R(sc, k + 2), R(sc, k + 3), R(sc, k + 4), R(sc, k + 5), R(sc, k + 6))
  }

  /** Each group when k calls precede it, and the number of calls made once it is
      drawn. A group with a count draws it first; each element then makes its fixed
      number of calls. */
  function NebulaGroup(sc: Scene, k: nat): seq<LayerElement> {
    Nebulae(sc, k + 1, Count(2, 2, R(sc, k + 1)))
  }

  function NebulaEnd(sc: Scene, k: nat): nat {
    k + 1 + 6 * Count(2, 2, R(sc, k + 1))
  }

  function OrbGroup(sc: Scene, k: nat): seq<LayerElement> {
    var n := Count(3, 2, R(sc, k + 1));
    Orbs(sc, k + 1, n, n)
  }

  function OrbEnd(sc: Scene, k: nat): nat {
    k + 1 + 5 * Count(3, 2, R(sc, k + 1))
  }

  function RingGroup(sc: Scene, k: nat): seq<LayerElement> {
    Rings(sc, k + 1, Count(2, 2, R(sc, k + 1)))
  }

  function RingEnd(sc: Scene, k: nat): nat {
    k + 1 + 2 * Count(2, 2, R(sc, k + 1))
  }

  /** One crystal for each of the first six characters; no count is drawn. */
  function CrystalGroup(sc: Scene, k: nat): seq<LayerElement> {
    var n := Min(|sc.chars|, 6);
    Crystals(sc, k, n, n)
  }

  function CrystalEnd(sc: Scene, k: nat): nat {
    k + 5 * Min(|sc.chars|, 6)
  }

  function ArcGroup(sc: Scene, k: nat): seq<LayerElement> {
    Arcs(sc, k + 1, Count(2, 2, R(sc, k + 1)))
  }

  function ArcEnd(sc: Scene, k: nat): nat {
    k + 1 + 3 * Count(2, 2, R(sc, k + 1))
  }

  function StarGroup(sc: Scene, k: nat): seq<LayerElement> {
    Stars(sc, k + 1, Count(4, 3, R(sc, k + 1)))
  }

  function StarEnd(sc: Scene, k: nat): nat {
    k + 1 + 6 * Count(4, 3, R(sc, k + 1))
  }

  function Min(a: nat, b: nat): nat {
    if a < b then a else b
  }

  /** The first n elements of each group. */
  function Nebulae(sc: Scene, k: nat, n: nat): (es: seq<LayerElement>)
    ensures |es| == n
  {
    seq(n, i requires 0 <= i < n => NebulaAt(sc, k + 6 * i))
  }

  function Orbs(sc: Scene, k: nat, n: nat, total: nat): (es: seq<LayerElement>)
    requires total > 0
    ensures |es| == n
  {
    seq(n, i requires 0 <= i < n => OrbAt(sc, k + 5 * i, i, total))
  }

  function Rings(sc: Scene, k: nat, n: nat): (es: seq<LayerElement>)
    ensures |es| == n
  {
    seq(n, i requires 0 <= i < n => RingAt(sc, k + 2 * i, i))
  }

  function Crystals(sc: Scene, k: nat, n: nat, total: nat): (es: seq<LayerElement>)
    requires n <= total <= |sc.chars|
    ensures |es| == n
  {
    seq(n, i requires 0 <= i < n => CrystalAt(sc, k + 5 * i, i, total))
  }

  function Arcs(sc: Scene, k: nat, n: nat): (es: seq<LayerElement>)
    ensures |es| == n
  {
    seq(n, i requires 0 <= i < n => ArcAt(sc, k + 3 * i, i))
  }

  function Stars(sc: Scene, k: nat, n: nat): (es: seq<LayerElement>)
    ensures |es| == n
  {
    seq(n, i requires 0 <= i < n => StarAt(sc, k + 6 * i))
  }

  /** Each loop iteration appends the next element of its group. */
  lemma NebulaeSnoc(sc: Scene, k: nat, n: nat, es: seq<LayerElement>, e: LayerElement)
    requires es == Nebulae(sc, k, n)
    requires e == NebulaAt(sc, k + 6 * n)
    ensures es + [e] == Nebulae(sc, k, n + 1)
  {
    var t := Nebulae(sc, k, n + 1);
    assert t[..n] == es;
    assert t == t[..n] + [t[n]];
  }

  lemma OrbsSnoc(sc: Scene, k: nat, n: nat, total: nat, es: seq<LayerElement>, e: LayerElement)
    requires total > 0 && es == Orbs(sc, k, n, total)
    requires e == OrbAt(sc, k + 5 * n, n, total)
    ensures es + [e] == Orbs(sc, k, n + 1, total)
  {
    var t := Orbs(sc, k, n + 1, total);
    assert t[..n] == es;
    assert t == t[..n] + [t[n]];
  }

  lemma RingsSnoc(sc: Scene, k: nat, n: nat, es: seq<LayerElement>, e: LayerElement)
    requires es == Rings(sc, k, n)
    requires e == RingAt(sc, k + 2 * n, n)
    ensures es + [e] == Rings(sc, k, n + 1)
  {
    var t := Rings(sc, k, n + 1);
    assert t[..n] == es;
    assert t == t[..n] + [t[n]];
  }

  lemma CrystalsSnoc(sc: Scene, k: nat, n: nat, total: nat, es: seq<LayerElement>, e: LayerElement)
    requires n < total <= |sc.chars| && es == Crystals(sc, k, n, total)
    requires e == CrystalAt(sc, k + 5 * n, n, total)
    ensures es + [e] == Crystals(sc, k, n + 1, total)
  {
    var t := Crystals(sc, k, n + 1, total);
    assert t[..n] == es;
    assert t == t[..n] + [t[n]];
  }

  lemma ArcsSnoc(sc: Scene, k: nat, n: nat, es: seq<LayerElement>, e: LayerElement)
    requires es == Arcs(sc, k, n)
    requires e == ArcAt(sc, k + 3 * n, n)
    ensures es + [e] == Arcs(sc, k, n + 1)
  {
    var t := Arcs(sc, k, n + 1);
    assert t[..n] == es;
    assert t == t[..n] + [t[n]];
  }

  lemma StarsSnoc(sc: Scene, k: nat, n: nat, es: seq<LayerElement>, e: LayerElement)
    requires es == Stars(sc, k, n)
    requires e == StarAt(sc, k + 6 * n)
    ensures es + [e] == Stars(sc, k, n + 1)
  {
    var t := Stars(sc, k, n + 1);
    assert t[..n] == es;
    assert t == t[..n] + [t[n]];
  }

  /** The six groups of a scene, in drawing order, each starting where the previous
      one left the generator. */
  function Groups(sc: Scene): (gs: seq<seq<LayerElement>>)
    ensures |gs| == 6
  {
    var k1 := NebulaEnd(sc, 0);
    var k2 := OrbEnd(sc, k1);
    var k3 := RingEnd(sc, k2);
    var k4 := CrystalEnd(sc, k3);
    var k5 := ArcEnd(sc, k4);
    [NebulaGroup(sc, 0), OrbGroup(sc, k1), RingGroup(sc, k2), CrystalGroup(sc, k3), ArcGroup(sc, k4), StarGroup(sc, k5)]
  }

  /** The six groups of a scene one after the other: the array `generateLayers` builds. */
  function Composition(sc: Scene): seq<LayerElement> {
    var gs := Groups(sc);
    gs[0] + gs[1] + gs[2] + gs[3] + gs[4] + gs[5]
  }

  /** The number of calls `generateLayers` makes on its generator. */
  function DrawsUsed(sc: Scene): nat {
    StarEnd(sc, ArcEnd(sc, CrystalEnd(sc, RingEnd(sc, OrbEnd(sc, NebulaEnd(sc, 0))))))
  }

  /** The array `generateLayers(email, size)` returns. */
  function LayoutPlan(email: string, size: real, trig: Trig): seq<LayerElement> {
    Composition(SceneOf(email, size, trig))
  }
}
