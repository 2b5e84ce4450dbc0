/** What `generateLayers` promises about the composition it returns: the group order,
    the counts and the calls they consume, opacity ranges, the geometry of rings and
    arcs, and where every colour comes from. */
module LayoutProperties {
  import opened Alphabet
  import opened Palettes
  import opened Layout

  /** The position of a kind in the drawing order. */
  function Rank(kind: LayerType): nat {
    match kind
    case Nebula => 0
    case GlowOrb => 1
    case Ring => 2
    case Crystal => 3
    case Arc => 4
    case Star => 5
  }

  /** The letter whose colours a group uses when the address has no characters left. */
  function Fallback(kind: LayerType): char
    requires kind != Crystal
  {
    match kind
    case Nebula => 'A'
    case GlowOrb => 'B'
    case Ring => 'C'
    case Arc => 'D'
    case Star => 'E'
  }

  /** The opacity range of each kind: from `OpacityFloor` up to but excluding
      `OpacityFloor + OpacitySpan`. */
  function OpacityFloor(kind: LayerType): real {
    match kind
    case Nebula => 0.2
    case GlowOrb => 0.85
    case Ring => 0.6
    case Crystal => 0.9
    case Arc => 0.7
    case Star => 0.8
  }

  function OpacitySpan(kind: LayerType): real {
    match kind
    case Nebula => 0.15
    case GlowOrb => 0.15
    case Ring => 0.3
    case Crystal => 0.1
    case Arc => 0.2
    case Star => 0.2
  }

  predicate OpacityInRange(e: LayerElement) {
    OpacityFloor(e.kind) <= e.opacity < OpacityFloor(e.kind) + OpacitySpan(e.kind)
  }

  /** The colours are the lookup of one character of the address; with no characters,
      of the kind's fallback letter (and then the element is no crystal). */
  predicate ColouredByCharacter(sc: Scene, e: LayerElement) {
    if sc.chars != [] then exists c :: c in sc.chars && e.colors == sc.palette([c])
    else e.kind != Crystal && e.colors == sc.palette([Fallback(e.kind)])
  }

  /** Everything an element of a group of the given kind satisfies. */
  predicate WellFormed(sc: Scene, kind: LayerType, es: seq<LayerElement>) {
    forall e :: e in es ==> e.kind == kind && OpacityInRange(e) && ColouredByCharacter(sc, e)
  }

  /** `chars[idx] || fallback` is a character of the address whenever there is one. */
  lemma PickColour(sc: Scene, idx: int, fallback: char, e: LayerElement)
    requires sc.chars != [] ==> 0 <= idx < |sc.chars|
    requires e.colors == sc.palette(Pick(sc.chars, idx, fallback))
    requires sc.chars == [] ==> e.kind != Crystal && fallback == Fallback(e.kind)
    ensures ColouredByCharacter(sc, e)
  {
    var s := Pick(sc.chars, idx, fallback);
    assert s == [s[0]];
    if sc.chars != [] {
      assert s[0] in sc.chars;
    }
  }

  /** Each element on its own, wherever it starts in the generator's sequence. */
  lemma NebulaAtWellFormed(sc: Scene, k: nat)
    ensures WellFormed(sc, Nebula, [NebulaAt(sc, k)])
  {
    PickColour(sc, FloorScaled(R(sc, k + 1), |sc.chars|), 'A', NebulaAt(sc, k));
  }

  lemma OrbAtWellFormed(sc: Scene, k: nat, i: nat, n: nat)
    requires n > 0
    ensures WellFormed(sc, GlowOrb, [OrbAt(sc, k, i, n)])
  {
    PickColour(sc, ModIndex(i * 2, |sc.chars|), 'B', OrbAt(sc, k, i, n));
  }

  lemma RingAtWellFormed(sc: Scene, k: nat, i: nat)
    ensures WellFormed(sc, Ring, [RingAt(sc, k, i)])
  {
    PickColour(sc, ModIndex(i * 3, |sc.chars|), 'C', RingAt(sc, k, i));
  }

  lemma CrystalAtWellFormed(sc: Scene, k: nat, i: nat, n: nat)
    requires i < n <= |sc.chars|
    ensures WellFormed(sc, Crystal, [CrystalAt(sc, k, i, n)])
  {
    assert sc.chars[i] in sc.chars;
  }

  lemma ArcAtWellFormed(sc: Scene, k: nat, i: nat)
    ensures WellFormed(sc, Arc, [ArcAt(sc, k, i)])
  {
    PickColour(sc, FloorScaled(R(sc, k + 1), |sc.chars|), 'D', ArcAt(sc, k, i));
  }

  lemma StarAtWellFormed(sc: Scene, k: nat)
    ensures WellFormed(sc, Star, [StarAt(sc, k)])
  {
    PickColour(sc, FloorScaled(R(sc, k + 1), |sc.chars|), 'E', StarAt(sc, k));
  }

  /** A group is well formed when each of its elements is. */
  lemma FromSingles(sc: Scene, kind: LayerType, es: seq<LayerElement>)
    requires forall i :: 0 <= i < |es| ==> WellFormed(sc, kind, [es[i]])
    ensures WellFormed(sc, kind, es)
  {
    forall e | e in es
      ensures e.kind == kind && OpacityInRange(e) && ColouredByCharacter(sc, e)
    {
      var i :| 0 <= i < |es| && es[i] == e;
      assert e in [es[i]];
    }
  }

  lemma NebulaGroupWellFormed(sc: Scene, k: nat)
    ensures WellFormed(sc, Nebula, NebulaGroup(sc, k))
  {
    var es := NebulaGroup(sc, k);
    forall i | 0 <= i < |es|
      ensures WellFormed(sc, Nebula, [es[i]])
    {
      NebulaAtWellFormed(sc, k + 1 + 6 * i);
    }
    FromSingles(sc, Nebula, es);
  }

  lemma OrbGroupWellFormed(sc: Scene, k: nat)
    ensures WellFormed(sc, GlowOrb, OrbGroup(sc, k))
  {
    var es := OrbGroup(sc, k);
    var n := Count(3, 2, R(sc, k + 1));
    forall i | 0 <= i < |es|
      ensures WellFormed(sc, GlowOrb, [es[i]])
    {
      OrbAtWellFormed(sc, k + 1 + 5 * i, i, n);
    }
    FromSingles(sc, GlowOrb, es);
  }

  lemma RingGroupWellFormed(sc: Scene, k: nat)
    ensures WellFormed(sc, Ring, RingGroup(sc, k))
  {
    var es := RingGroup(sc, k);
    forall i | 0 <= i < |es|
      ensures WellFormed(sc, Ring, [es[i]])
    {
      RingAtWellFormed(sc, k + 1 + 2 * i, i);
    }
    FromSingles(sc, Ring, es);
  }

  lemma CrystalGroupWellFormed(sc: Scene, k: nat)
    ensures WellFormed(sc, Crystal, CrystalGroup(sc, k))
  {
    var es := CrystalGroup(sc, k);
    var n := Min(|sc.chars|, 6);
    forall i | 0 <= i < |es|
      ensures WellFormed(sc, Crystal, [es[i]])
    {
      CrystalAtWellFormed(sc, k + 5 * i, i, n);
    }
    FromSingles(sc, Crystal, es);
  }

  lemma ArcGroupWellFormed(sc: Scene, k: nat)
    ensures WellFormed(sc, Arc, ArcGroup(sc, k))
  {
    var es := ArcGroup(sc, k);
    forall i | 0 <= i < |es|
      ensures WellFormed(sc, Arc, [es[i]])
    {
      ArcAtWellFormed(sc, k + 1 + 3 * i, i);
    }
    FromSingles(sc, Arc, es);
  }

  lemma StarGroupWellFormed(sc: Scene, k: nat)
    ensures WellFormed(sc, Star, StarGroup(sc, k))
  {
    var es := StarGroup(sc, k);
    forall i | 0 <= i < |es|
      ensures WellFormed(sc, Star, [es[i]])
    {
      StarAtWellFormed(sc, k + 1 + 6 * i);
    }
    FromSingles(sc, Star, es);
  }

  /** Each of the six groups holds elements of one kind, with opacities in range and
      colours taken from the address. */
  lemma GroupsWellFormed(sc: Scene)
    ensures var gs := Groups(sc);
            WellFormed(sc, Nebula, gs[0]) && WellFormed(sc, GlowOrb, gs[1]) &&
            WellFormed(sc, Ring, gs[2]) && WellFormed(sc, Crystal, gs[3]) &&
            WellFormed(sc, Arc, gs[4]) && WellFormed(sc, Star, gs[5])
  {
    var k1 := NebulaEnd(sc, 0);
    var k2 := OrbEnd(sc, k1);
    var k3 := RingEnd(sc, k2);
    var k4 := CrystalEnd(sc, k3);
    var k5 := ArcEnd(sc, k4);
    NebulaGroupWellFormed(sc, 0);
    OrbGroupWellFormed(sc, k1);
    RingGroupWellFormed(sc, k2);
    CrystalGroupWellFormed(sc, k3);
    ArcGroupWellFormed(sc, k4);
    StarGroupWellFormed(sc, k5);
  }

  /** Ranks never decrease along a sequence. */
  predicate InDrawingOrder(es: seq<LayerElement>) {
    forall i, j :: 0 <= i < j < |es| ==> Rank(es[i].kind) <= Rank(es[j].kind)
  }

  lemma OrderAppend(a: seq<LayerElement>, kind: LayerType, b: seq<LayerElement>)
    requires InDrawingOrder(a)
    requires forall e :: e in a ==> Rank(e.kind) <= Rank(kind)
    requires forall e :: e in b ==> e.kind == kind
    ensures InDrawingOrder(a + b)
    ensures forall e :: e in a + b ==> Rank(e.kind) <= Rank(kind)
  {
    var c := a + b;
    forall i, j | 0 <= i < j < |c|
      ensures Rank(c[i].kind) <= Rank(c[j].kind)
    {
      if j < |a| {
        assert c[i] == a[i] && c[j] == a[j];
      } else if i < |a| {
        assert c[i] in a && c[j] in b;
      } else {
        assert c[i] in b && c[j] in b;
      }
    }
  }

  /** The composition: nebulae, then orbs, rings, crystals, arcs and stars, each element
      with its kind's opacity range and the colours of a character of the address. */
  lemma CompositionWellFormed(sc: Scene)
    ensures InDrawingOrder(Composition(sc))
    ensures forall e :: e in Composition(sc) ==> OpacityInRange(e) && ColouredByCharacter(sc, e)
  {
    var gs := Groups(sc);
    GroupsWellFormed(sc);
    assert gs[0] == [] + gs[0];
    OrderAppend([], Nebula, gs[0]);
    OrderAppend(gs[0], GlowOrb, gs[1]);
    OrderAppend(gs[0] + gs[1], Ring, gs[2]);
    OrderAppend(gs[0] + gs[1] + gs[2], Crystal, gs[3]);
    OrderAppend(gs[0] + gs[1] + gs[2] + gs[3], Arc, gs[4]);
    OrderAppend(gs[0] + gs[1] + gs[2] + gs[3] + gs[4], Star, gs[5]);
    forall e | e in Composition(sc)
      ensures OpacityInRange(e) && ColouredByCharacter(sc, e)
    {
      assert e in gs[0] || e in gs[1] || e in gs[2] || e in gs[3] || e in gs[4] || e in gs[5];
    }
  }

  /** The count of every group and the draw it comes from: the first call decides the
      nebulae, and each later count is the call right after the previous group's
      elements. Crystals draw no count. */
  lemma GroupCounts(sc: Scene)
    ensures var gs := Groups(sc);
            var k1 := 1 + 6 * |gs[0]|;
            var k2 := k1 + 1 + 5 * |gs[1]|;
            && |gs[0]| == 2 + FloorScaled(R(sc, 1), 2)
            && |gs[1]| == 3 + FloorScaled(R(sc, k1 + 1), 2)
            && |gs[2]| == 2 + FloorScaled(R(sc, k2 + 1), 2)
            && |gs[3]| == (if |sc.chars| < 6 then |sc.chars| else 6)
  {
    var k1 := NebulaEnd(sc, 0);
    NebulaSize(sc, 0);
    OrbSize(sc, k1);
    RingSize(sc, OrbEnd(sc, k1));
    CrystalSize(sc, RingEnd(sc, OrbEnd(sc, k1)));
  }

  /** The counts of arcs and stars, after the calls of the first four groups, and the
      number of calls the whole composition makes. */
  lemma LaterGroupCounts(sc: Scene)
    ensures var gs := Groups(sc);
            var k3 := 1 + 6 * |gs[0]| + 1 + 5 * |gs[1]| + 1 + 2 * |gs[2]|;
            var k4 := k3 + 5 * |gs[3]|;
            var k5 := k4 + 1 + 3 * |gs[4]|;
            && |gs[4]| == 2 + FloorScaled(R(sc, k4 + 1), 2)
            && |gs[5]| == 4 + FloorScaled(R(sc, k5 + 1), 3)
            && DrawsUsed(sc) == k5 + 1 + 6 * |gs[5]|
  {
    var k1 := NebulaEnd(sc, 0);
    var k2 := OrbEnd(sc, k1);
    var k3 := RingEnd(sc, k2);
    var k4 := CrystalEnd(sc, k3);
    var k5 := ArcEnd(sc, k4);
    NebulaSize(sc, 0);
    OrbSize(sc, k1);
    RingSize(sc, k2);
    CrystalSize(sc, k3);
    ArcSize(sc, k4);
    StarSize(sc, k5);
  }

  /** Nebulae and rings and arcs number 2 or 3, orbs 3 or 4, stars 4 to 6, and
      crystals at most 6. */
  lemma GroupCountRanges(sc: Scene)
    ensures var gs := Groups(sc);
            && 2 <= |gs[0]| <= 3 && 3 <= |gs[1]| <= 4 && 2 <= |gs[2]| <= 3
            && |gs[3]| <= 6 && 2 <= |gs[4]| <= 3 && 4 <= |gs[5]| <= 6
  {
    GroupCounts(sc);
    LaterGroupCounts(sc);
  }

  /** The size of each group drawn after k calls, and the calls it leaves behind. */
  lemma NebulaSize(sc: Scene, k: nat)
    ensures |NebulaGroup(sc, k)| == 2 + FloorScaled(R(sc, k + 1), 2)
    ensures NebulaEnd(sc, k) == k + 1 + 6 * |NebulaGroup(sc, k)|
  {
    CountIsFloor(2, 2, R(sc, k + 1));
  }

  lemma OrbSize(sc: Scene, k: nat)
    ensures |OrbGroup(sc, k)| == 3 + FloorScaled(R(sc, k + 1), 2)
    ensures OrbEnd(sc, k) == k + 1 + 5 * |OrbGroup(sc, k)|
  {
    CountIsFloor(3, 2, R(sc, k + 1));
  }

  lemma RingSize(sc: Scene, k: nat)
    ensures |RingGroup(sc, k)| == 2 + FloorScaled(R(sc, k + 1), 2)
    ensures RingEnd(sc, k) == k + 1 + 2 * |RingGroup(sc, k)|
  {
    CountIsFloor(2, 2, R(sc, k + 1));
  }

  lemma CrystalSize(sc: Scene, k: nat)
    ensures |CrystalGroup(sc, k)| == (if |sc.chars| < 6 then |sc.chars| else 6)
    ensures CrystalEnd(sc, k) == k + 5 * |CrystalGroup(sc, k)|
  {
  }

  lemma ArcSize(sc: Scene, k: nat)
    ensures |ArcGroup(sc, k)| == 2 + FloorScaled(R(sc, k + 1), 2)
    ensures ArcEnd(sc, k) == k + 1 + 3 * |ArcGroup(sc, k)|
  {
    CountIsFloor(2, 2, R(sc, k + 1));
  }

  lemma StarSize(sc: Scene, k: nat)
    ensures |StarGroup(sc, k)| == 4 + FloorScaled(R(sc, k + 1), 3)
    ensures StarEnd(sc, k) == k + 1 + 6 * |StarGroup(sc, k)|
  {
    CountIsFloor(4, 3, R(sc, k + 1));
  }

  /** Rings are centred, grow by 0.12 of the canvas per ring from 0.2 of it, and are
      not blurred. */
  lemma RingGeometry(sc: Scene)
    ensures var rs := Groups(sc)[2];
            forall i :: 0 <= i < |rs| ==>
              && rs[i].x == sc.size / 2.0 && rs[i].y == sc.size / 2.0
              && rs[i].size == sc.size * 0.2 + i as real * sc.size * 0.12
              && rs[i].blur == 0.0
  {
  }

  /** Arcs are centred, grow by 0.08 of the canvas per arc from 0.25 of it, and arc i
      is turned between 90i and 90i + 60 degrees. */
  lemma ArcGeometry(sc: Scene)
    ensures var arcs := Groups(sc)[4];
            forall i :: 0 <= i < |arcs| ==>
              && arcs[i].x == sc.size / 2.0 && arcs[i].y == sc.size / 2.0
              && arcs[i].size == sc.size * 0.25 + i as real * sc.size * 0.08
              && i as real * 90.0 <= arcs[i].rotation < i as real * 90.0 + 60.0
  {
  }

  /** Crystal i has the colours of the i-th character, for each of the first six. */
  lemma CrystalColours(sc: Scene)
    ensures var cs := Groups(sc)[3];
            && |cs| == (if |sc.chars| < 6 then |sc.chars| else 6)
            && forall i :: 0 <= i < |cs| ==> cs[i].kind == Crystal && cs[i].colors == sc.palette([sc.chars[i]])
  {
  }

  /** An address with no character left gives no crystals, and every other element
      takes the palette of its group's fallback letter. */
  lemma EmptyAddress(email: string, size: real, trig: Trig)
    requires Normalize(email) == []
    ensures var plan := LayoutPlan(email, size, trig);
            && |plan| >= 13
            && forall e :: e in plan ==> e.kind != Crystal && e.colors == GetCharacterPalette([Fallback(e.kind)])
  {
    var sc := SceneOf(email, size, trig);
    CompositionWellFormed(sc);
    GroupCounts(sc);
  }
}
