/** `generateLayers` as it runs: one generator, six loops, each pass drawing one
    element and pushing it onto `layers`. Every method is proved against the functions
    of `Layout`. */
module LayerGeneration {
  import opened JsSemantics
  import opened Alphabet
  import opened Palettes
  import opened AvatarHash
  import opened Prng
  import opened Layout

  /** `generateLayers(email, size)`: the characters, one generator seeded with the hash,
      then the six loops. */
  method GenerateLayers(email: string, size: real, trig: Trig) returns (layers: seq<LayerElement>)
    ensures layers == LayoutPlan(email, size, trig)
  {
    var hash := HashString(email);
    var rng := new SeededRandom(hash);
    var chars := Normalize(email);
    var sc := Scene(chars, size, trig, GetCharacterPalette, StreamOf(hash));
    layers := PushLayers(rng, sc);
  }

  /** The six loops in turn, each pushing its group onto `layers`. */
  method PushLayers(rng: SeededRandom, sc: Scene) returns (layers: seq<LayerElement>)
    requires Feeds(rng, sc) && rng.calls == 0
    modifies rng
    ensures layers == Composition(sc) && rng.calls == DrawsUsed(sc)
  {
    var nebulae := PushNebulae(rng, sc, 0);
    ghost var k1 := NebulaEnd(sc, 0);
    var orbs := PushOrbs(rng, sc, k1);
    ghost var k2 := OrbEnd(sc, k1);
    var rings := PushRings(rng, sc, k2);
    ghost var k3 := RingEnd(sc, k2);
    var crystals := PushCrystals(rng, sc, k3);
    ghost var k4 := CrystalEnd(sc, k3);
    var arcs := PushArcs(rng, sc, k4);
    ghost var k5 := ArcEnd(sc, k4);
    var stars := PushStars(rng, sc, k5);
    layers := nebulae + orbs + rings + crystals + arcs + stars;
  }

  /** The generator answers the scene's draws: its k-th call returns `R(sc, k)`. */
  ghost predicate Feeds(rng: SeededRandom, sc: Scene)
    reads rng
  {
    rng.Valid() && forall j {:trigger Draw(rng.origin, j)} :: j >= 1 ==> sc.rand(j) == Draw(rng.origin, j)
  }

  /** `base + Math.floor(rand() * spread)`: the count of a group. */
  method NextCount(rng: SeededRandom, sc: Scene, base: nat, spread: nat) returns (n: nat)
    requires Feeds(rng, sc) && spread > 0
    modifies rng
    ensures Feeds(rng, sc) && rng.calls == old(rng.calls) + 1
    ensures n == Count(base, spread, R(sc, rng.calls))
  {
    var r := rng.Next();
    n := base + FloorScaled(r, spread);
    CountIsFloor(base, spread, r);
  }

  /** Layer 1: draw the count, then one nebula per pass. */
  method PushNebulae(rng: SeededRandom, sc: Scene, ghost k: nat) returns (es: seq<LayerElement>)
    requires Feeds(rng, sc) && rng.calls == k
    modifies rng
    ensures es == NebulaGroup(sc, k) && Feeds(rng, sc) && rng.calls == NebulaEnd(sc, k)
  {
    var n := NextCount(rng, sc, 2, 2);
    es := [];
    for i := 0 to n
      invariant Feeds(rng, sc) && rng.calls == k + 1 + 6 * i
      invariant es == Nebulae(sc, k + 1, i)
    {
      es := PushNebula(rng, sc, k + 1, i, es);
    }
  }

  /** One pass of the loop: the element's calls, then the push. */
  method PushNebula(rng: SeededRandom, sc: Scene, ghost k: nat, i: nat, es: seq<LayerElement>) returns (es': seq<LayerElement>)
    requires Feeds(rng, sc) && rng.calls == k + 6 * i
    requires es == Nebulae(sc, k, i)
    modifies rng
    ensures Feeds(rng, sc) && rng.calls == k + 6 * (i + 1)
    ensures es' == Nebulae(sc, k, i + 1)
  {
    var e := NextNebula(rng, sc, k + 6 * i);
    NebulaeSnoc(sc, k, i, es, e);
    es' := es + [e];
  }

  /** Layer 2: draw the count, then one glowing orb per pass. */
  method PushOrbs(rng: SeededRandom, sc: Scene, ghost k: nat) returns (es: seq<LayerElement>)
    requires Feeds(rng, sc) && rng.calls == k
    modifies rng
    ensures es == OrbGroup(sc, k) && Feeds(rng, sc) && rng.calls == OrbEnd(sc, k)
  {
    var n := NextCount(rng, sc, 3, 2);
    es := [];
    for i := 0 to n
      invariant Feeds(rng, sc) && rng.calls == k + 1 + 5 * i
      invariant es == Orbs(sc, k + 1, i, n)
    {
      es := PushOrb(rng, sc, k + 1, i, n, es);
    }
  }

  /** One pass of the loop: the element's calls, then the push. */
  method PushOrb(rng: SeededRandom, sc: Scene, ghost k: nat, i: nat, n: nat, es: seq<LayerElement>) returns (es': seq<LayerElement>)
    requires Feeds(rng, sc) && rng.calls == k + 5 * i && n > 0
    requires es == Orbs(sc, k, i, n)
    modifies rng
    ensures Feeds(rng, sc) && rng.calls == k + 5 * (i + 1)
    ensures es' == Orbs(sc, k, i + 1, n)
  {
    var e := NextOrb(rng, sc, k + 5 * i, i, n);
    OrbsSnoc(sc, k, i, n, es, e);
    es' := es + [e];
  }

  /** Layer 3: draw the count, then one accent ring per pass. */
  method PushRings(rng: SeededRandom, sc: Scene, ghost k: nat) returns (es: seq<LayerElement>)
    requires Feeds(rng, sc) && rng.calls == k
    modifies rng
    ensures es == RingGroup(sc, k) && Feeds(rng, sc) && rng.calls == RingEnd(sc, k)
  {
    var n := NextCount(rng, sc, 2, 2);
    es := [];
    for i := 0 to n
      invariant Feeds(rng, sc) && rng.calls == k + 1 + 2 * i
      invariant es == Rings(sc, k + 1, i)
    {
      es := PushRing(rng, sc, k + 1, i, es);
    }
  }

  /** One pass of the loop: the element's calls, then the push. */
  method PushRing(rng: SeededRandom, sc: Scene, ghost k: nat, i: nat, es: seq<LayerElement>) returns (es': seq<LayerElement>)
    requires Feeds(rng, sc) && rng.calls == k + 2 * i
    requires es == Rings(sc, k, i)
    modifies rng
    ensures Feeds(rng, sc) && rng.calls == k + 2 * (i + 1)
    ensures es' == Rings(sc, k, i + 1)
  {
    var e := NextRing(rng, sc, k + 2 * i, i);
    RingsSnoc(sc, k, i, es, e);
    es' := es + [e];
  }

  /** Layer 4: one crystal for each of the first six characters; no count is drawn. */
  method PushCrystals(rng: SeededRandom, sc: Scene, ghost k: nat) returns (es: seq<LayerElement>)
    requires Feeds(rng, sc) && rng.calls == k
    modifies rng
    ensures es == CrystalGroup(sc, k) && Feeds(rng, sc) && rng.calls == CrystalEnd(sc, k)
  {
    var n := Min(|sc.chars|, 6);
    es := [];
    for i := 0 to n
      invariant Feeds(rng, sc) && rng.calls == k + 5 * i
      invariant es == Crystals(sc, k, i, n)
    {
      es := PushCrystal(rng, sc, k, i, n, es);
    }
  }

  /** One pass of the loop: the element's calls, then the push. */
  method PushCrystal(rng: SeededRandom, sc: Scene, ghost k: nat, i: nat, n: nat, es: seq<LayerElement>) returns (es': seq<LayerElement>)
    requires Feeds(rng, sc) && rng.calls == k + 5 * i && i < n <= |sc.chars|
    requires es == Crystals(sc, k, i, n)
    modifies rng
    ensures Feeds(rng, sc) && rng.calls == k + 5 * (i + 1)
    ensures es' == Crystals(sc, k, i + 1, n)
  {
    var e := NextCrystal(rng, sc, k + 5 * i, i, n);
    CrystalsSnoc(sc, k, i, n, es, e);
    es' := es + [e];
  }

  /** Layer 5: draw the count, then one arc per pass. */
  method PushArcs(rng: SeededRandom, sc: Scene, ghost k: nat) returns (es: seq<LayerElement>)
    requires Feeds(rng, sc) && rng.calls == k
    modifies rng
    ensures es == ArcGroup(sc, k) && Feeds(rng, sc) && rng.calls == ArcEnd(sc, k)
  {
    var n := NextCount(rng, sc, 2, 2);
    es := [];
    for i := 0 to n
      invariant Feeds(rng, sc) && rng.calls == k + 1 + 3 * i
      invariant es == Arcs(sc, k + 1, i)
    {
      es := PushArc(rng, sc, k + 1, i, es);
    }
  }

  /** One pass of the loop: the element's calls, then the push. */
  method PushArc(rng: SeededRandom, sc: Scene, ghost k: nat, i: nat, es: seq<LayerElement>) returns (es': seq<LayerElement>)
    requires Feeds(rng, sc) && rng.calls == k + 3 * i
    requires es == Arcs(sc, k, i)
    modifies rng
    ensures Feeds(rng, sc) && rng.calls == k + 3 * (i + 1)
    ensures es' == Arcs(sc, k, i + 1)
  {
    var e := NextArc(rng, sc, k + 3 * i, i);
    ArcsSnoc(sc, k, i, es, e);
    es' := es + [e];
  }

  /** Layer 6: draw the count, then one star per pass. */
  method PushStars(rng: SeededRandom, sc: Scene, ghost k: nat) returns (es: seq<LayerElement>)
    requires Feeds(rng, sc) && rng.calls == k
    modifies rng
    ensures es == StarGroup(sc, k) && Feeds(rng, sc) && rng.calls == StarEnd(sc, k)
  {
    var n := NextCount(rng, sc, 4, 3);
    es := [];
    for i := 0 to n
      invariant Feeds(rng, sc) && rng.calls == k + 1 + 6 * i
      invariant es == Stars(sc, k + 1, i)
    {
      es := PushStar(rng, sc, k + 1, i, es);
    }
  }

  /** One pass of the loop: the element's calls, then the push. */
  method PushStar(rng: SeededRandom, sc: Scene, ghost k: nat, i: nat, es: seq<LayerElement>) returns (es': seq<LayerElement>)
    requires Feeds(rng, sc) && rng.calls == k + 6 * i
    requires es == Stars(sc, k, i)
    modifies rng
    ensures Feeds(rng, sc) && rng.calls == k + 6 * (i + 1)
    ensures es' == Stars(sc, k, i + 1)
  {
    var e := NextStar(rng, sc, k + 6 * i);
    StarsSnoc(sc, k, i, es, e);
    es' := es + [e];
  }

  /** One pass of each loop body: the element's calls, in order, then the element. */
  method NextNebula(rng: SeededRandom, sc: Scene, ghost k: nat) returns (e: LayerElement)
    requires rng.Valid() && rng.calls == k
    modifies rng
    ensures rng.Valid() && rng.calls == k + 6
    ensures e == NebulaElement(sc, Draw(rng.origin, k + 1), Draw(rng.origin, k + 2), Draw(rng.origin, k + 3), Draw(rng.origin, k + 4), Draw(rng.origin, k + 5), Draw(rng.origin, k + 6))
  {
    var r1 := rng.Next();
    assert r1 == Draw(rng.origin, k + 1);
    var r2 := rng.Next();
    assert r2 == Draw(rng.origin, k + 2);
    var r3 := rng.Next();
    assert r3 == Draw(rng.origin, k + 3);
    var r4 := rng.Next();
    assert r4 == Draw(rng.origin, k + 4);
    var r5 := rng.Next();
    assert r5 == Draw(rng.origin, k + 5);
    var r6 := rng.Next();
    assert r6 == Draw(rng.origin, k + 6);
    e := NebulaElement(sc, r1, r2, r3, r4, r5, r6);
  }

  method NextOrb(rng: SeededRandom, sc: Scene, ghost k: nat, i: nat, n: nat) returns (e: LayerElement)
    requires rng.Valid() && rng.calls == k && n > 0
    modifies rng
    ensures rng.Valid() && rng.calls == k + 5
    ensures e == OrbElement(sc, i, n, Draw(rng.origin, k + 1), Draw(rng.origin, k + 2), Draw(rng.origin, k + 3), Draw(rng.origin, k + 4), Draw(rng.origin, k + 5))
  {
    var r1 := rng.Next();
    assert r1 == Draw(rng.origin, k + 1);
    var r2 := rng.Next();
    assert r2 == Draw(rng.origin, k + 2);
    var r3 := rng.Next();
    assert r3 == Draw(rng.origin, k + 3);
    var r4 := rng.Next();
    assert r4 == Draw(rng.origin, k + 4);
    var r5 := rng.Next();
    assert r5 == Draw(rng.origin, k + 5);
    e := OrbElement(sc, i, n, r1, r2, r3, r4, r5);
  }

  method NextRing(rng: SeededRandom, sc: Scene, ghost k: nat, i: nat) returns (e: LayerElement)
    requires rng.Valid() && rng.calls == k
    modifies rng
    ensures rng.Valid() && rng.calls == k + 2
    ensures e == RingElement(sc, i, Draw(rng.origin, k + 1), Draw(rng.origin, k + 2))
  {
    var r1 := rng.Next();
    assert r1 == Draw(rng.origin, k + 1);
    var r2 := rng.Next();
    assert r2 == Draw(rng.origin, k + 2);
    e := RingElement(sc, i, r1, r2);
  }

  method NextCrystal(rng: SeededRandom, sc: Scene, ghost k: nat, i: nat, n: nat) returns (e: LayerElement)
    requires rng.Valid() && rng.calls == k && i < n <= |sc.chars|
    modifies rng
    ensures rng.Valid() && rng.calls == k + 5
    ensures e == CrystalElement(sc, i, n, Draw(rng.origin, k + 1), Draw(rng.origin, k + 2), Draw(rng.origin, k + 3), Draw(rng.origin, k + 4), Draw(rng.origin, k + 5))
  {
    var r1 := rng.Next();
    assert r1 == Draw(rng.origin, k + 1);
    var r2 := rng.Next();
    assert r2 == Draw(rng.origin, k + 2);
    var r3 := rng.Next();
    assert r3 == Draw(rng.origin, k + 3);
    var r4 := rng.Next();
    assert r4 == Draw(rng.origin, k + 4);
    var r5 := rng.Next();
    assert r5 == Draw(rng.origin, k + 5);
    e := CrystalElement(sc, i, n, r1, r2, r3, r4, r5);
  }

  method NextArc(rng: SeededRandom, sc: Scene, ghost k: nat, i: nat) returns (e: LayerElement)
    requires rng.Valid() && rng.calls == k
    modifies rng
    ensures rng.Valid() && rng.calls == k + 3
    ensures e == ArcElement(sc, i, Draw(rng.origin, k + 1), Draw(rng.origin, k + 2), Draw(rng.origin, k + 3))
  {
    var r1 := rng.Next();
    assert r1 == Draw(rng.origin, k + 1);
    var r2 := rng.Next();
    assert r2 == Draw(rng.origin, k + 2);
    var r3 := rng.Next();
    assert r3 == Draw(rng.origin, k + 3);
    e := ArcElement(sc, i, r1, r2, r3);
  }

  method NextStar(rng: SeededRandom, sc: Scene, ghost k: nat) returns (e: LayerElement)
    requires rng.Valid() && rng.calls == k
    modifies rng
    ensures rng.Valid() && rng.calls == k + 6
    ensures e == StarElement(sc, Draw(rng.origin, k + 1), Draw(rng.origin, k + 2), Draw(rng.origin, k + 3), Draw(rng.origin, k + 4), Draw(rng.origin, k + 5), Draw(rng.origin, k + 6))
  {
    var r1 := rng.Next();
    assert r1 == Draw(rng.origin, k + 1);
    var r2 := rng.Next();
    assert r2 == Draw(rng.origin, k + 2);
    var r3 := rng.Next();
    assert r3 == Draw(rng.origin, k + 3);
    var r4 := rng.Next();
    assert r4 == Draw(rng.origin, k + 4);
    var r5 := rng.Next();
    assert r5 == Draw(rng.origin, k + 5);
    var r6 := rng.Next();
    assert r6 == Draw(rng.origin, k + 6);
    e := StarElement(sc, r1, r2, r3, r4, r5, r6);
  }
}
