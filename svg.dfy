/** `generateAvatarSVG`: the vector form of an avatar. A background gradient whose hues
    come from the hash, then one glow gradient and one pair of circles for each of the
    first six characters, all clipped to a rounded square and darkened by a vignette.
    Numbers that are not integers are printed by a caller-supplied `num` (JavaScript's
    Number-to-String); integers print as their decimal digits. */
module AvatarSvg {
  import opened JsSemantics
  import opened Alphabet
  import opened Palettes
  import opened AvatarHash
  import opened Layout
  import opened Breakdown

  /** `(hash % 40) + 250`: a hue in the purple-blue range. */
  function BgHue(hash: nat): (hue: nat)
    ensures 250 <= hue <= 289
    ensures (hue - 250) % 40 == hash % 40
  {
    hash % 40 + 250
  }

  /** `((hash >> 8) % 30) + 280`. The shift converts the hash with ToInt32 and shifts
      arithmetically (a floor division by 256); `%` keeps the dividend's sign. */
  function BgHue2(hash: nat): (hue: int)
    requires hash <= TwoTo31
    ensures 251 <= hue <= 309
    ensures hash < TwoTo31 ==> 280 <= hue <= 309
  {
    JsRem(ToInt32(hash) / 256, 30) + 280
  }

  /** Below 2^31 the shift is a plain division of the hash. */
  lemma BgHue2BelowTop(hash: nat)
    requires hash < TwoTo31
    ensures BgHue2(hash) == (hash / 256) % 30 + 280
  {
  }

  /** `Math.abs` leaves 2^31 for the one accumulator it cannot negate; ToInt32 sends it
      back to -2^31, whose shift is -8388608 and whose remainder is -8. */
  lemma BgHue2AtTop()
    ensures BgHue2(TwoTo31) == 272
  {
    assert ToInt32(TwoTo31) == -TwoTo31;
    assert -TwoTo31 / 256 == -8388608;
  }

  /** `(bgHue + bgHue2) / 2`, the hue of the middle stop. */
  function MidHue(hash: nat): (hue: real)
    requires hash <= TwoTo31
    ensures 250.5 <= hue <= 299.0
  {
    (BgHue(hash) + BgHue2(hash)) as real / 2.0
  }

  /** Whether w occurs in s at position k. */
  predicate OccursAt(w: string, s: string, k: int) {
    0 <= k <= |s| - |w| && s[k..k + |w|] == w
  }

  /** Whether w occurs in s. */
  ghost predicate IsInfix(w: string, s: string) {
    exists k :: OccursAt(w, s, k)
  }

  lemma InfixSelf(w: string)
    ensures IsInfix(w, w)
  {
    assert w[0..|w|] == w;
    assert OccursAt(w, w, 0);
  }

  lemma InfixPrepend(w: string, a: string, s: string)
    requires IsInfix(w, s)
    ensures IsInfix(w, a + s)
  {
    var k :| OccursAt(w, s, k);
    assert (a + s)[|a| + k..|a| + k + |w|] == s[k..k + |w|];
    assert OccursAt(w, a + s, |a| + k);
  }

  lemma InfixAppend(w: string, s: string, b: string)
    requires IsInfix(w, s)
    ensures IsInfix(w, s + b)
  {
    var k :| OccursAt(w, s, k);
    assert (s + b)[k..k + |w|] == s[k..k + |w|];
    assert OccursAt(w, s + b, k);
  }

  lemma InfixMiddle(w: string, a: string, b: string)
    ensures IsInfix(w, a + w + b)
  {
    assert (a + w + b)[|a|..|a| + |w|] == w;
    assert OccursAt(w, a + w + b, |a|);
  }

  /** The pieces appended by a loop, one after the other. */
  function Concat(pieces: seq<string>): (s: string)
  {
    if pieces == [] then [] else Concat(pieces[..|pieces| - 1]) + pieces[|pieces| - 1]
  }

  lemma ConcatSnoc(pieces: seq<string>, i: nat)
    requires i < |pieces|
    ensures Concat(pieces[..i + 1]) == Concat(pieces[..i]) + pieces[i]
  {
    assert pieces[..i + 1][..i] == pieces[..i];
  }

  /** A word of one piece is a word of the whole text. */
  lemma {:induction false} InfixOfConcat(w: string, pieces: seq<string>, i: nat)
    requires i < |pieces| && IsInfix(w, pieces[i])
    ensures IsInfix(w, Concat(pieces))
  {
    var last := |pieces| - 1;
    if i == last {
      InfixPrepend(w, Concat(pieces[..last]), pieces[i]);
    } else {
      InfixOfConcat(w, pieces[..last], i);
      InfixAppend(w, Concat(pieces[..last]), pieces[last]);
    }
  }

  /** `id="glow{i}"`: the id of the i-th glow gradient. */
  function GlowDef(i: nat): string {
    "id=\"glow" + NatToString(i) + "\""
  }

  /** `fill="url(#glow{i})"`: the outer circle of shape i painted with that gradient. */
  function GlowRef(i: nat): string {
    "fill=\"url(#glow" + NatToString(i) + ")\""
  }

  /** `fill="{colour}"`: the inner circle painted in a core colour. */
  function CoreFill(c: Rgb): string {
    "fill=\"" + ColourText(c) + "\""
  }

  /** Different shapes define different gradients. */
  lemma GlowDefsDistinct(i: nat, j: nat)
    requires GlowDef(i) == GlowDef(j)
    ensures i == j
  {
    var a, b := NatToString(i), NatToString(j);
    assert GlowDef(i)[8..8 + |a|] == a;
    assert GlowDef(j)[8..8 + |b|] == b;
    NatToStringInjective(i, j);
  }

  /** Different shapes refer to different gradients. */
  lemma GlowRefsDistinct(i: nat, j: nat)
    requires GlowRef(i) == GlowRef(j)
    ensures i == j
  {
    var a, b := NatToString(i), NatToString(j);
    assert GlowRef(i)[15..15 + |a|] == a;
    assert GlowRef(j)[15..15 + |b|] == b;
    NatToStringInjective(i, j);
  }

  /** The two circles of shape i at (x, y): the outer one twice the shape size in the
      glow gradient at opacity 0.4, the inner one the shape size in the core colour. */
  function CirclePair(num: real -> string, x: real, y: real, shapeSize: real, i: nat, core: Rgb): string {
    CircleAt(num, x, y) + OuterTail(num, shapeSize, i) + CircleAt(num, x, y) + InnerTail(num, shapeSize, core)
  }

  /** The start of a circle element centred at (x, y). */
  function CircleAt(num: real -> string, x: real, y: real): string {
    "\n      <circle cx=\"" + num(x) + "\" cy=\"" + num(y) + "\" "
  }

  /** `r="{r}" `: the radius attribute. */
  function Radius(num: real -> string, r: real): string {
    "r=\"" + num(r) + "\" "
  }

  /** The rest of the outer circle: radius twice the shape size, glow gradient i,
      opacity 0.4. */
  function OuterTail(num: real -> string, shapeSize: real, i: nat): string {
    Radius(num, shapeSize * 2.0) + GlowRef(i) + " opacity=\"0.4\"/>"
  }

  /** The rest of the inner circle: radius the shape size, filled with the core colour. */
  function InnerTail(num: real -> string, shapeSize: real, core: Rgb): string {
    Radius(num, shapeSize) + CoreFill(core) + "/>"
  }

  /** The outer circle refers to glow gradient i and the inner one shows the core
      colour; with them come their radii and the outer circle's opacity. */
  lemma CirclePairMentions(num: real -> string, x: real, y: real, shapeSize: real, i: nat, core: Rgb)
    ensures IsInfix(GlowRef(i), CirclePair(num, x, y, shapeSize, i, core))
    ensures IsInfix(CoreFill(core), CirclePair(num, x, y, shapeSize, i, core))
    ensures IsInfix(OuterTail(num, shapeSize, i), CirclePair(num, x, y, shapeSize, i, core))
    ensures IsInfix(InnerTail(num, shapeSize, core), CirclePair(num, x, y, shapeSize, i, core))
  {
    var at, outer, inner := CircleAt(num, x, y), OuterTail(num, shapeSize, i), InnerTail(num, shapeSize, core);
    var ref, fill := GlowRef(i), CoreFill(core);
    InfixSelf(ref);
    InfixPrepend(ref, Radius(num, shapeSize * 2.0), ref);
    InfixAppend(ref, Radius(num, shapeSize * 2.0) + ref, " opacity=\"0.4\"/>");
    InfixSelf(fill);
    InfixPrepend(fill, Radius(num, shapeSize), fill);
    InfixAppend(fill, Radius(num, shapeSize) + fill, "/>");
    TailsInPair(ref, at, outer, inner, true);
    TailsInPair(fill, at, outer, inner, false);
    InfixSelf(outer);
    TailsInPair(outer, at, outer, inner, true);
    InfixSelf(inner);
    TailsInPair(inner, at, outer, inner, false);
  }

  /** A word of the outer tail (or of the inner tail) is a word of the pair. */
  lemma TailsInPair(w: string, at: string, outer: string, inner: string, inOuter: bool)
    requires if inOuter then IsInfix(w, outer) else IsInfix(w, inner)
    ensures IsInfix(w, at + outer + at + inner)
  {
    if inOuter {
      InfixPrepend(w, at, outer);
      InfixAppend(w, at + outer, at);
      InfixAppend(w, at + outer + at, inner);
    } else {
      InfixPrepend(w, at + outer + at, inner);
    }
  }

  /** The glow gradient of shape i: the core colour at the centre, the mid colour at
      60% with half opacity, the dark colour fading out at the rim. */
  function GlowGradient(i: nat, p: Palette): string {
    "\n      <radialGradient " + GlowDef(i) + GlowStops(p)
  }

  function GlowStops(p: Palette): string {
    ">\n        <stop offset=\"0%\" style=\"stop-color:" + ColourText(p[0])
    + "\"/>\n        <stop offset=\"60%\" style=\"stop-color:" + ColourText(p[1])
    + ";stop-opacity:0.5\"/>\n        <stop offset=\"100%\" style=\"stop-color:" + ColourText(p[2])
    + ";stop-opacity:0\"/>\n      </radialGradient>"
  }

  /** Glow gradient i carries the id the circles of shape i refer to. */
  lemma GlowGradientDefines(i: nat, p: Palette)
    ensures IsInfix(GlowDef(i), GlowGradient(i, p))
  {
    InfixSelf(GlowDef(i));
    InfixPrepend(GlowDef(i), "\n      <radialGradient ", GlowDef(i));
    InfixAppend(GlowDef(i), "\n      <radialGradient " + GlowDef(i), GlowStops(p));
  }

  /** `Math.min(chars.length, 6)`. */
  function ShapeCount(chars: string): (n: nat)
    ensures n <= 6 && n <= |chars|
    ensures n == |chars| || n == 6
  {
    if |chars| < 6 then |chars| else 6
  }

  /** `size * 0.08`: the size of each shape. */
  function ShapeSize(size: real): real {
    size * 0.08
  }

  /** The centre of shape i of n: on a circle of radius 0.2 * size around the middle,
      at angle (i / n) * 2 pi. */
  function ShapeX(size: real, trig: Trig, i: nat, n: nat): real
    requires n > 0
  {
    size / 2.0 + trig.cos((i as real / n as real) * Pi * 2.0) * (size * 0.2)
  }

  function ShapeY(size: real, trig: Trig, i: nat, n: nat): real
    requires n > 0
  {
    size / 2.0 + trig.sin((i as real / n as real) * Pi * 2.0) * (size * 0.2)
  }

  /** Everything the document depends on: the hash, the normalised characters, the
      canvas size, the trigonometry, the colour lookup and the printing of numbers. */
  datatype SvgInput = SvgInput(hash: nat, chars: string, size: real, trig: Trig, palette: string -> Palette, num: real -> string)

  /** The input `generateAvatarSVG(email, size)` works from. */
  function InputOf(email: string, size: real, trig: Trig, num: real -> string): (inp: SvgInput)
    ensures inp.hash == Hash(email) && inp.hash <= TwoTo31 && inp.chars == Normalize(email)
    ensures inp.palette == GetCharacterPalette
  {
    SvgInput(Hash(email), Normalize(email), size, trig, GetCharacterPalette, num)
  }

  /** The colours of character i. */
  function ColoursOf(inp: SvgInput, i: nat): Palette
    requires i < |inp.chars|
  {
    inp.palette([inp.chars[i]])
  }

  /** The core colour of character i, which fills its inner circle. */
  function CoreColour(inp: SvgInput, i: nat): Rgb
    requires i < |inp.chars|
  {
    ColoursOf(inp, i)[0]
  }

  /** What the first loop appends, shape by shape. */
  function ShapePieces(inp: SvgInput): (ps: seq<string>)
    ensures |ps| == ShapeCount(inp.chars)
  {
    var n := ShapeCount(inp.chars);
    seq(n, i requires 0 <= i < n => ShapePiece(inp, i, n))
  }

  function ShapePiece(inp: SvgInput, i: nat, n: nat): string
    requires i < n <= |inp.chars|
  {
    CirclePair(inp.num, ShapeX(inp.size, inp.trig, i, n), ShapeY(inp.size, inp.trig, i, n), ShapeSize(inp.size), i, CoreColour(inp, i))
  }

  /** Piece i of the shapes refers to glow gradient i and shows core colour i. */
  lemma ShapePieceMentions(inp: SvgInput, i: nat)
    requires i < ShapeCount(inp.chars)
    ensures IsInfix(GlowRef(i), ShapePieces(inp)[i])
    ensures IsInfix(CoreFill(CoreColour(inp, i)), ShapePieces(inp)[i])
  {
    var n := ShapeCount(inp.chars);
    CirclePairMentions(inp.num, ShapeX(inp.size, inp.trig, i, n), ShapeY(inp.size, inp.trig, i, n), ShapeSize(inp.size), i, CoreColour(inp, i));
  }

  /** What the second loop appends, shape by shape. */
  function GradientPieces(inp: SvgInput): (ps: seq<string>)
    ensures |ps| == ShapeCount(inp.chars)
  {
    var n := ShapeCount(inp.chars);
    seq(n, i requires 0 <= i < n => GradientPiece(inp, i))
  }

  function GradientPiece(inp: SvgInput, i: nat): string
    requires i < |inp.chars|
  {
    GlowGradient(i, ColoursOf(inp, i))
  }

  /** Piece i of the gradient definitions defines glow gradient i. */
  lemma GradientPieceDefines(inp: SvgInput, i: nat)
    requires i < ShapeCount(inp.chars)
    ensures IsInfix(GlowDef(i), GradientPieces(inp)[i])
  {
    GlowGradientDefines(i, ColoursOf(inp, i));
  }

  /** The document up to the gradient definitions: the size, and the background
      gradient with its three hues. */
  function Head(inp: SvgInput): string
    requires inp.hash <= TwoTo31
  {
    var sizeText := inp.num(inp.size);
    "<svg xmlns=\"http://www.w3.org/2000/svg\" width=\"" + sizeText + "\" height=\"" + sizeText
    + "\" viewBox=\"0 0 " + sizeText + " " + sizeText + "\">\n    <defs>\n      <radialGradient id=\"bgGrad\" cx=\"30%\" cy=\"30%\">\n        <stop offset=\"0%\" style=\"stop-color:hsl("
    + NatToString(BgHue(inp.hash)) + ", 50%, 12%)\"/>\n        <stop offset=\"50%\" style=\"stop-color:hsl("
    + inp.num(MidHue(inp.hash)) + ", 40%, 7%)\"/>\n        <stop offset=\"100%\" style=\"stop-color:hsl("
    + NatToString(BgHue2(inp.hash)) + ", 60%, 4%)\"/>\n      </radialGradient>\n      "
  }

  /** The rounded clip path (corner radius 0.15 * size), the vignette and the
      background square. */
  function Middle(inp: SvgInput): string {
    var sizeText := inp.num(inp.size);
    ClipStart(sizeText) + CornerOf(inp) + ClipEnd(sizeText)
  }

  /** The corner attributes of the clip path: radius 0.15 * size. */
  function CornerOf(inp: SvgInput): string {
    Corner(inp.num(inp.size * 0.15))
  }

  function ClipStart(sizeText: string): string {
    "\n      <clipPath id=\"rounded\">\n        <rect width=\"" + sizeText + "\" height=\"" + sizeText + "\" "
  }

  /** `rx="{c}" ry="{c}"`: the corners of the clip path. */
  function Corner(cornerText: string): string {
    "rx=\"" + cornerText + "\" ry=\"" + cornerText + "\""
  }

  function ClipEnd(sizeText: string): string {
    "/>\n      </clipPath>\n      <radialGradient id=\"vignette\" cx=\"50%\" cy=\"50%\">\n        <stop offset=\"15%\" style=\"stop-color:transparent\"/>\n        <stop offset=\"100%\" style=\"stop-color:rgba(0,0,0,0.6)\"/>\n      </radialGradient>\n    </defs>\n    <g clip-path=\"url(#rounded)\">\n      <rect width=\""
    + sizeText + "\" height=\"" + sizeText + "\" fill=\"url(#bgGrad)\"/>\n      "
  }

  /** The vignette square over the shapes, and the closing tags. */
  function Foot(inp: SvgInput): string {
    var sizeText := inp.num(inp.size);
    "\n      <rect width=\"" + sizeText + "\" height=\"" + sizeText + "\" fill=\"url(#vignette)\"/>\n    </g>\n  </svg>"
  }

  /** The template filled with the two appended texts. */
  function SvgText(inp: SvgInput, defs: string, shapes: string): string
    requires inp.hash <= TwoTo31
  {
    Head(inp) + defs + Middle(inp) + shapes + Foot(inp)
  }

  /** The whole document of an input. */
  function Document(inp: SvgInput): string
    requires inp.hash <= TwoTo31
  {
    SvgText(inp, Concat(GradientPieces(inp)), Concat(ShapePieces(inp)))
  }

  /** Every glow gradient a circle refers to is defined, and every inner circle shows
      its character's core colour. */
  lemma DocumentMentions(inp: SvgInput)
    requires inp.hash <= TwoTo31
    ensures forall i :: 0 <= i < ShapeCount(inp.chars) ==>
              && IsInfix(GlowDef(i), Document(inp))
              && IsInfix(GlowRef(i), Document(inp))
              && IsInfix(CoreFill(CoreColour(inp, i)), Document(inp))
  {
    forall i | 0 <= i < ShapeCount(inp.chars)
      ensures && IsInfix(GlowDef(i), Document(inp))
              && IsInfix(GlowRef(i), Document(inp))
              && IsInfix(CoreFill(CoreColour(inp, i)), Document(inp))
    {
      GradientInDocument(inp, i);
      ShapeInDocument(inp, i);
    }
  }

  /** Every outer circle has radius 2 * 0.08 * size, its glow gradient and opacity 0.4;
      every inner circle has radius 0.08 * size and its character's core colour. */
  lemma DocumentCircles(inp: SvgInput)
    requires inp.hash <= TwoTo31
    ensures forall i :: 0 <= i < ShapeCount(inp.chars) ==>
              && IsInfix("r=\"" + inp.num(ShapeSize(inp.size) * 2.0) + "\" " + GlowRef(i) + " opacity=\"0.4\"/>", Document(inp))
              && IsInfix("r=\"" + inp.num(ShapeSize(inp.size)) + "\" " + CoreFill(CoreColour(inp, i)) + "/>", Document(inp))
  {
    forall i | 0 <= i < ShapeCount(inp.chars)
      ensures && IsInfix("r=\"" + inp.num(ShapeSize(inp.size) * 2.0) + "\" " + GlowRef(i) + " opacity=\"0.4\"/>", Document(inp))
              && IsInfix("r=\"" + inp.num(ShapeSize(inp.size)) + "\" " + CoreFill(CoreColour(inp, i)) + "/>", Document(inp))
    {
      CircleInDocument(inp, i);
      TailTexts(inp.num, ShapeSize(inp.size), i, CoreColour(inp, i));
    }
  }

  lemma TailTexts(num: real -> string, shapeSize: real, i: nat, core: Rgb)
    ensures OuterTail(num, shapeSize, i) == "r=\"" + num(shapeSize * 2.0) + "\" " + GlowRef(i) + " opacity=\"0.4\"/>"
    ensures InnerTail(num, shapeSize, core) == "r=\"" + num(shapeSize) + "\" " + CoreFill(core) + "/>"
  {
  }

  lemma CircleInDocument(inp: SvgInput, i: nat)
    requires inp.hash <= TwoTo31 && i < ShapeCount(inp.chars)
    ensures IsInfix(OuterTail(inp.num, ShapeSize(inp.size), i), Document(inp))
    ensures IsInfix(InnerTail(inp.num, ShapeSize(inp.size), CoreColour(inp, i)), Document(inp))
  {
    var n := ShapeCount(inp.chars);
    CirclePairMentions(inp.num, ShapeX(inp.size, inp.trig, i, n), ShapeY(inp.size, inp.trig, i, n), ShapeSize(inp.size), i, CoreColour(inp, i));
    ShapeWordInDocument(inp, i, OuterTail(inp.num, ShapeSize(inp.size), i));
    ShapeWordInDocument(inp, i, InnerTail(inp.num, ShapeSize(inp.size), CoreColour(inp, i)));
  }

  /** The clip path rounds its corners with radius 0.15 * size. */
  lemma DocumentCorners(inp: SvgInput)
    requires inp.hash <= TwoTo31
    ensures IsInfix("rx=\"" + inp.num(inp.size * 0.15) + "\" ry=\"" + inp.num(inp.size * 0.15) + "\"", Document(inp))
  {
    CornerInMiddle(inp);
    MiddleInSvgText(inp, Concat(GradientPieces(inp)), Concat(ShapePieces(inp)), CornerOf(inp));
    CornerText(inp);
  }

  lemma CornerText(inp: SvgInput)
    ensures CornerOf(inp) == "rx=\"" + inp.num(inp.size * 0.15) + "\" ry=\"" + inp.num(inp.size * 0.15) + "\""
  {
  }

  lemma CornerInMiddle(inp: SvgInput)
    ensures IsInfix(CornerOf(inp), Middle(inp))
  {
    var sizeText := inp.num(inp.size);
    InfixMiddle(CornerOf(inp), ClipStart(sizeText), ClipEnd(sizeText));
  }

  lemma GradientInDocument(inp: SvgInput, i: nat)
    requires inp.hash <= TwoTo31 && i < ShapeCount(inp.chars)
    ensures IsInfix(GlowDef(i), Document(inp))
  {
    var gs := GradientPieces(inp);
    GradientPieceDefines(inp, i);
    InfixOfConcat(GlowDef(i), gs, i);
    DefsInSvgText(inp, Concat(gs), Concat(ShapePieces(inp)), GlowDef(i));
  }

  lemma ShapeInDocument(inp: SvgInput, i: nat)
    requires inp.hash <= TwoTo31 && i < ShapeCount(inp.chars)
    ensures IsInfix(GlowRef(i), Document(inp)) && IsInfix(CoreFill(CoreColour(inp, i)), Document(inp))
  {
    ShapePieceMentions(inp, i);
    ShapeWordInDocument(inp, i, GlowRef(i));
    ShapeWordInDocument(inp, i, CoreFill(CoreColour(inp, i)));
  }

  lemma ShapeWordInDocument(inp: SvgInput, i: nat, w: string)
    requires inp.hash <= TwoTo31 && i < ShapeCount(inp.chars)
    requires IsInfix(w, ShapePieces(inp)[i])
    ensures IsInfix(w, Document(inp))
  {
    var ss := ShapePieces(inp);
    InfixOfConcat(w, ss, i);
    ShapesInSvgText(inp, Concat(GradientPieces(inp)), Concat(ss), w);
  }

  /** A word of the gradient definitions is a word of the document. */
  lemma DefsInSvgText(inp: SvgInput, defs: string, shapes: string, w: string)
    requires inp.hash <= TwoTo31 && IsInfix(w, defs)
    ensures IsInfix(w, SvgText(inp, defs, shapes))
  {
    InfixOfSecond(w, Head(inp), defs, Middle(inp), shapes, Foot(inp));
  }

  /** A word of the clip path and background is a word of the document. */
  lemma MiddleInSvgText(inp: SvgInput, defs: string, shapes: string, w: string)
    requires inp.hash <= TwoTo31 && IsInfix(w, Middle(inp))
    ensures IsInfix(w, SvgText(inp, defs, shapes))
  {
    InfixOfThird(w, Head(inp), defs, Middle(inp), shapes, Foot(inp));
  }

  /** A word of the shapes is a word of the document. */
  lemma ShapesInSvgText(inp: SvgInput, defs: string, shapes: string, w: string)
    requires inp.hash <= TwoTo31 && IsInfix(w, shapes)
    ensures IsInfix(w, SvgText(inp, defs, shapes))
  {
    InfixOfFourth(w, Head(inp), defs, Middle(inp), shapes, Foot(inp));
  }

  lemma InfixOfSecond(w: string, a: string, b: string, c: string, d: string, e: string)
    requires IsInfix(w, b)
    ensures IsInfix(w, a + b + c + d + e)
  {
    InfixPrepend(w, a, b);
    InfixAppend(w, a + b, c);
    InfixAppend(w, a + b + c, d);
    InfixAppend(w, a + b + c + d, e);
  }

  lemma InfixOfThird(w: string, a: string, b: string, c: string, d: string, e: string)
    requires IsInfix(w, c)
    ensures IsInfix(w, a + b + c + d + e)
  {
    InfixPrepend(w, a + b, c);
    InfixAppend(w, a + b + c, d);
    InfixAppend(w, a + b + c + d, e);
  }

  lemma InfixOfFourth(w: string, a: string, b: string, c: string, d: string, e: string)
    requires IsInfix(w, d)
    ensures IsInfix(w, a + b + c + d + e)
  {
    InfixPrepend(w, a + b + c, d);
    InfixAppend(w, a + b + c + d, e);
  }

  /** The string `generateAvatarSVG(email, size)` returns. */
  function AvatarSvgText(email: string, size: real, trig: Trig, num: real -> string): string {
    Document(InputOf(email, size, trig, num))
  }

  /** The inner circles carry the colours the character breakdown lists. */
  lemma SvgMatchesBreakdown(email: string, size: real, trig: Trig, num: real -> string)
    ensures var infos := ProcessEmail(email);
            forall i :: 0 <= i < |infos| && i < 6 ==>
              IsInfix("fill=\"" + infos[i].color + "\"", AvatarSvgText(email, size, trig, num))
  {
    var inp := InputOf(email, size, trig, num);
    var infos := ProcessEmail(email);
    forall i | 0 <= i < |infos| && i < 6
      ensures IsInfix("fill=\"" + infos[i].color + "\"", AvatarSvgText(email, size, trig, num))
    {
      BreakdownColour(email, inp, i);
      ShapeInDocument(inp, i);
    }
  }

  /** Entry i of the breakdown names the core colour its inner circle is filled with. */
  lemma BreakdownColour(email: string, inp: SvgInput, i: nat)
    requires inp.chars == Normalize(email) && inp.palette == GetCharacterPalette
    requires i < |inp.chars|
    ensures "fill=\"" + ProcessEmail(email)[i].color + "\"" == CoreFill(CoreColour(inp, i))
  {
  }

  /** `generateAvatarSVG(email, size)`: hash the address, append the circle pairs and
      then the glow gradients in two loops, and fill in the template. */
  method GenerateAvatarSvg(email: string, size: real, trig: Trig, num: real -> string) returns (svg: string)
    ensures svg == AvatarSvgText(email, size, trig, num)
  {
    var hash := HashString(email);
    var chars := Normalize(email);
    var inp := SvgInput(hash, chars, size, trig, GetCharacterPalette, num);
    assert inp == InputOf(email, size, trig, num);
    svg := Render(inp);
  }

  /** The document of an input, built by the two loops. */
  method Render(inp: SvgInput) returns (svg: string)
    requires inp.hash <= TwoTo31
    ensures svg == Document(inp)
  {
    var shapes := AppendShapes(inp);
    var gradientDefs := AppendGradients(inp);
    svg := SvgText(inp, gradientDefs, shapes);
  }

  /** The first loop: one circle pair per shape, in the colours of its character,
      centred on a circle of radius 0.2 * size, with shape size 0.08 * size. */
  method AppendShapes(inp: SvgInput) returns (shapes: string)
    ensures shapes == Concat(ShapePieces(inp))
  {
    var numShapes := ShapeCount(inp.chars);
    ghost var ss := ShapePieces(inp);
    shapes := "";
    for i := 0 to numShapes
      invariant shapes == Concat(ss[..i])
    {
      shapes := AppendShape(inp, i, shapes);
    }
    assert ss[..numShapes] == ss;
  }

  /** The second loop: one glow gradient per shape. */
  method AppendGradients(inp: SvgInput) returns (gradientDefs: string)
    ensures gradientDefs == Concat(GradientPieces(inp))
  {
    var numShapes := ShapeCount(inp.chars);
    ghost var gs := GradientPieces(inp);
    gradientDefs := "";
    for i := 0 to numShapes
      invariant gradientDefs == Concat(gs[..i])
    {
      gradientDefs := AppendGradient(inp, i, gradientDefs);
    }
    assert gs[..numShapes] == gs;
  }

  /** One pass of the second loop: append glow gradient i. */
  method AppendGradient(inp: SvgInput, i: nat, defs: string) returns (defs': string)
    requires i < ShapeCount(inp.chars) && defs == Concat(GradientPieces(inp)[..i])
    ensures defs' == Concat(GradientPieces(inp)[..i + 1])
  {
    ConcatSnoc(GradientPieces(inp), i);
    defs' := defs + GradientPiece(inp, i);
  }

  /** One pass of the first loop: append the circle pair of shape i. */
  method AppendShape(inp: SvgInput, i: nat, shapes: string) returns (shapes': string)
    requires i < ShapeCount(inp.chars) && shapes == Concat(ShapePieces(inp)[..i])
    ensures shapes' == Concat(ShapePieces(inp)[..i + 1])
  {
    ConcatSnoc(ShapePieces(inp), i);
    shapes' := shapes + ShapePiece(inp, i, ShapeCount(inp.chars));
  }
}
