/** `CHARACTER_SHAPE_MAP`, `ALL_CHARACTERS`, `getShapeForCharacter` and
    `verifyUniqueShapes`: the glyph drawn beside each character of the avatar alphabet.
    Each of the 41 characters has a shape type and a variant; the pair, written
    `type-variant`, is the key under which the uniqueness check records it. */
module CharacterShapes {
  import opened JsSemantics
  import opened Optional
  import opened Alphabet
  import opened PropertyOrder

  /** The shape types the table uses. */
  datatype ShapeType =
      Triangle | Concentric | Arc | Semicircle | HorizontalLines | Spiral | CrossPlus
    | VerticalLine | Hook | ArrowRight | Corner | Zigzag | Circle | Lollipop | CircleTail
    | LollipopKick | Wave | Tau | Cup | TriangleDown | Cross | Fork | Ellipse | LineDot
    | TripleArc | ArrowDown | Flag | Angle | Dot | Underscore | Dash

  /** The `type` text of a shape type. */
  function TypeName(t: ShapeType): string {
    match t
      case Triangle => "triangle"
      case Concentric => "concentric"
      case Arc => "arc"
      case Semicircle => "semicircle"
      case HorizontalLines => "horizontal-lines"
      case Spiral => "spiral"
      case CrossPlus => "cross-plus"
      case VerticalLine => "vertical-line"
      case Hook => "hook"
      case ArrowRight => "arrow-right"
      case Corner => "corner"
      case Zigzag => "zigzag"
      case Circle => "circle"
      case Lollipop => "lollipop"
      case CircleTail => "circle-tail"
      case LollipopKick => "lollipop-kick"
      case Wave => "wave"
      case Tau => "tau"
      case Cup => "cup"
      case TriangleDown => "triangle-down"
      case Cross => "cross"
      case Fork => "fork"
      case Ellipse => "ellipse"
      case LineDot => "line-dot"
      case TripleArc => "triple-arc"
      case ArrowDown => "arrow-down"
      case Flag => "flag"
      case Angle => "angle"
      case Dot => "dot"
      case Underscore => "underscore"
      case Dash => "dash"
  }

  /** The length, first and last character of a name, packed into one number. */
  function NameFeatures(name: string): int {
    if name == [] then 0 else (|name| * 0x11_0000 + name[0] as int) * 0x11_0000 + name[|name| - 1] as int
  }

  /** The shape type whose name has the given features: the features alone tell the
      type names apart. */
  function TypeWithFeatures(n: int): Option<ShapeType> {
    match n
      case 9930093625445 => Some(Triangle)
      case 12412565782627 => Some(Concentric)
      case 3723844714595 => Some(Arc)
      case 12412583608421 => Some(Semicircle)
      case 19860044644467 => Some(HorizontalLines)
      case 7447601414252 => Some(Spiral)
      case 12412565782643 => Some(CrossPlus)
      case 16136323596389 => Some(VerticalLine)
      case 4965098061931 => Some(Hook)
      case 13653809102964 => Some(ArrowRight)
      case 7447583588466 => Some(Corner)
      case 7447609213031 => Some(Zigzag)
      case 7447583588453 => Some(Circle)
      case 9930084712560 => Some(Lollipop)
      case 13653811331180 => Some(CircleTail)
      case 16136312455275 => Some(LollipopKick)
      case 4965114773605 => Some(Wave)
      case 3723865882741 => Some(Tau)
      case 3723846942832 => Some(Cup)
      case 16136321368174 => Some(TriangleDown)
      case 6206338039923 => Some(Cross)
      case 4965095833707 => Some(Fork)
      case 8688831365221 => Some(Ellipse)
      case 9930084712564 => Some(LineDot)
      case 12412584722531 => Some(TripleArc)
      case 12412563554414 => Some(ArrowDown)
      case 4965095833703 => Some(Flag)
      case 6206335811685 => Some(Angle)
      case 3723848056948 => Some(Dot)
      case 12412585836645 => Some(Underscore)
      case 4965093605480 => Some(Dash)
      case _ => None
  }

  lemma TypeFeaturesInverse(t: ShapeType)
    ensures TypeWithFeatures(NameFeatures(TypeName(t))) == Some(t)
  {
    if t.Triangle? || t.Concentric? || t.Arc? || t.Semicircle? || t.HorizontalLines? || t.Spiral? {
      TypeFeaturesInverse1(t);
    } else if t.CrossPlus? || t.VerticalLine? || t.Hook? || t.ArrowRight? || t.Corner? || t.Zigzag? {
      TypeFeaturesInverse2(t);
    } else if t.Circle? || t.Lollipop? || t.CircleTail? || t.LollipopKick? || t.Wave? || t.Tau? {
      TypeFeaturesInverse3(t);
    } else if t.Cup? || t.TriangleDown? || t.Cross? || t.Fork? || t.Ellipse? || t.LineDot? {
      TypeFeaturesInverse4(t);
    } else if t.TripleArc? || t.ArrowDown? || t.Flag? || t.Angle? || t.Dot? || t.Underscore? {
      TypeFeaturesInverse5(t);
    } else {
      TypeFeaturesInverse6(t);
    }
  }

  lemma TypeFeaturesInverse1(t: ShapeType)
    requires t.Triangle? || t.Concentric? || t.Arc? || t.Semicircle? || t.HorizontalLines? || t.Spiral?
    ensures TypeWithFeatures(NameFeatures(TypeName(t))) == Some(t)
  {
  }

  lemma TypeFeaturesInverse2(t: ShapeType)
    requires t.CrossPlus? || t.VerticalLine? || t.Hook? || t.ArrowRight? || t.Corner? || t.Zigzag?
    ensures TypeWithFeatures(NameFeatures(TypeName(t))) == Some(t)
  {
  }

  lemma TypeFeaturesInverse3(t: ShapeType)
    requires t.Circle? || t.Lollipop? || t.CircleTail? || t.LollipopKick? || t.Wave? || t.Tau?
    ensures TypeWithFeatures(NameFeatures(TypeName(t))) == Some(t)
  {
  }

  lemma TypeFeaturesInverse4(t: ShapeType)
    requires t.Cup? || t.TriangleDown? || t.Cross? || t.Fork? || t.Ellipse? || t.LineDot?
    ensures TypeWithFeatures(NameFeatures(TypeName(t))) == Some(t)
  {
  }

  lemma TypeFeaturesInverse5(t: ShapeType)
    requires t.TripleArc? || t.ArrowDown? || t.Flag? || t.Angle? || t.Dot? || t.Underscore?
    ensures TypeWithFeatures(NameFeatures(TypeName(t))) == Some(t)
  {
  }

  lemma TypeFeaturesInverse6(t: ShapeType)
    requires t.Dash?
    ensures TypeWithFeatures(NameFeatures(TypeName(t))) == Some(t)
  {
  }

  /** `ShapeDefinition`. */
  datatype ShapeDefinition = ShapeDefinition(character: string, kind: ShapeType, variant: nat, labelText: string, description: string)

  /** `CHARACTER_SHAPE_MAP[k]` for a one-character key k: letters, digits and the five
      punctuation characters, each part of the table on its own. */
  function ShapeEntry(c: char): (r: Option<ShapeDefinition>)
    ensures r.Some? <==> Allowed(c)
    ensures r.Some? ==> r.value.character == [c]
  {
    if IsUpperLetter(c) then LetterShape(c)
    else if IsDecimalDigit(c) then DigitShape(c)
    else SpecialShape(c)
  }

  /** Letters A-Z. */
  function LetterShape(c: char): (r: Option<ShapeDefinition>)
  {
    match c as int
      case 65 => Some(ShapeDefinition("A", Triangle, 1, "Triangle Up", "Upward pointing triangle"))
      case 66 => Some(ShapeDefinition("B", Concentric, 2, "Double Ring", "Two concentric circles"))
      case 67 => Some(ShapeDefinition("C", Arc, 1, "Open Arc", "Open curved arc"))
      case 68 => Some(ShapeDefinition("D", Semicircle, 1, "Half Moon", "Right-facing semicircle"))
      case 69 => Some(ShapeDefinition("E", HorizontalLines, 3, "Triple Lines", "Three horizontal lines"))
      case 70 => Some(ShapeDefinition("F", HorizontalLines, 2, "Double Lines", "Two horizontal lines"))
      case 71 => Some(ShapeDefinition("G", Spiral, 1, "Spiral CW", "Clockwise spiral"))
      case 72 => Some(ShapeDefinition("H", CrossPlus, 1, "Plus", "Plus sign cross"))
      case 73 => Some(ShapeDefinition("I", VerticalLine, 1, "Pillar", "Single vertical line"))
      case 74 => Some(ShapeDefinition("J", Hook, 1, "Hook", "Curved hook shape"))
      case 75 => Some(ShapeDefinition("K", ArrowRight, 1, "Arrow Right", "Right pointing arrow"))
      case 76 => Some(ShapeDefinition("L", Corner, 1, "Corner", "Right angle corner"))
      case 77 => Some(ShapeDefinition("M", Zigzag, 3, "Mountain", "Mountain peaks zigzag"))
      case 78 => Some(ShapeDefinition("N", Zigzag, 2, "Wave Peak", "Single wave peak"))
      case 79 => Some(ShapeDefinition("O", Circle, 1, "Circle", "Simple circle"))
      case 80 => Some(ShapeDefinition("P", Lollipop, 1, "Lollipop", "Circle on a stem"))
      case 81 => Some(ShapeDefinition("Q", CircleTail, 1, "Circle Tail", "Circle with diagonal tail"))
      case 82 => Some(ShapeDefinition("R", LollipopKick, 1, "Lollipop Kick", "Lollipop with leg"))
      case 83 => Some(ShapeDefinition("S", Wave, 2, "Snake", "S-shaped wave"))
      case 84 => Some(ShapeDefinition("T", Tau, 1, "Tau", "T-shaped tau"))
      case 85 => Some(ShapeDefinition("U", Cup, 1, "Cup", "U-shaped cup"))
      case 86 => Some(ShapeDefinition("V", TriangleDown, 1, "Triangle Down", "Downward pointing triangle"))
      case 87 => Some(ShapeDefinition("W", Zigzag, 4, "Double Valley", "Double valley zigzag"))
      case 88 => Some(ShapeDefinition("X", Cross, 1, "Cross X", "Diagonal cross"))
      case 89 => Some(ShapeDefinition("Y", Fork, 1, "Fork", "Y-shaped fork"))
      case 90 => Some(ShapeDefinition("Z", Zigzag, 1, "Zag", "Z-shaped zigzag"))
      case _ => None
  }

  /** Digits 0-9. */
  function DigitShape(c: char): (r: Option<ShapeDefinition>)
  {
    match c as int
      case 48 => Some(ShapeDefinition("0", Ellipse, 1, "Ellipse", "Vertical ellipse"))
      case 49 => Some(ShapeDefinition("1", LineDot, 1, "Line & Dot", "Vertical line with dot"))
      case 50 => Some(ShapeDefinition("2", Wave, 1, "Gentle Wave", "Gentle wave curve"))
      case 51 => Some(ShapeDefinition("3", TripleArc, 1, "Triple Arc", "Three stacked arcs"))
      case 52 => Some(ShapeDefinition("4", ArrowDown, 1, "Arrow Down", "Downward arrow"))
      case 53 => Some(ShapeDefinition("5", Flag, 1, "Flag", "Flag shape"))
      case 54 => Some(ShapeDefinition("6", Spiral, 2, "Spiral CCW", "Counter-clockwise spiral"))
      case 55 => Some(ShapeDefinition("7", Angle, 1, "Angle", "Right angle"))
      case 56 => Some(ShapeDefinition("8", Concentric, 3, "Triple Ring", "Three concentric circles"))
      case 57 => Some(ShapeDefinition("9", Spiral, 3, "Reverse Spiral", "Inverted spiral"))
      case _ => None
  }

  /** The characters `@ . _ - +`. */
  function SpecialShape(c: char): (r: Option<ShapeDefinition>)
  {
    match c as int
      case 64 => Some(ShapeDefinition("@", Concentric, 4, "At Ring", "Ring with center dot"))
      case 46 => Some(ShapeDefinition(".", Dot, 1, "Dot", "Single dot"))
      case 95 => Some(ShapeDefinition("_", Underscore, 1, "Base", "Horizontal base line"))
      case 45 => Some(ShapeDefinition("-", Dash, 1, "Dash", "Horizontal dash"))
      case 43 => Some(ShapeDefinition("+", CrossPlus, 2, "Plus Bold", "Bold plus sign"))
      case _ => None
  }

  /** The table read backwards: the character drawn with shape type t in variant v. */
  function ShapeOwner(t: ShapeType, v: nat): (c: Option<char>)
    ensures c.Some? ==> Allowed(c.value)
  {
    match t
      case Triangle => if v == 1 then Some('A') else None
      case Concentric => if v == 2 then Some('B') else if v == 3 then Some('8') else if v == 4 then Some('@') else None
      case Arc => if v == 1 then Some('C') else None
      case Semicircle => if v == 1 then Some('D') else None
      case HorizontalLines => if v == 3 then Some('E') else if v == 2 then Some('F') else None
      case Spiral => if v == 1 then Some('G') else if v == 2 then Some('6') else if v == 3 then Some('9') else None
      case CrossPlus => if v == 1 then Some('H') else if v == 2 then Some('+') else None
      case VerticalLine => if v == 1 then Some('I') else None
      case Hook => if v == 1 then Some('J') else None
      case ArrowRight => if v == 1 then Some('K') else None
      case Corner => if v == 1 then Some('L') else None
      case Zigzag => if v == 3 then Some('M') else if v == 2 then Some('N') else if v == 4 then Some('W') else if v == 1 then Some('Z') else None
      case Circle => if v == 1 then Some('O') else None
      case Lollipop => if v == 1 then Some('P') else None
      case CircleTail => if v == 1 then Some('Q') else None
      case LollipopKick => if v == 1 then Some('R') else None
      case Wave => if v == 2 then Some('S') else if v == 1 then Some('2') else None
      case Tau => if v == 1 then Some('T') else None
      case Cup => if v == 1 then Some('U') else None
      case TriangleDown => if v == 1 then Some('V') else None
      case Cross => if v == 1 then Some('X') else None
      case Fork => if v == 1 then Some('Y') else None
      case Ellipse => if v == 1 then Some('0') else None
      case LineDot => if v == 1 then Some('1') else None
      case TripleArc => if v == 1 then Some('3') else None
      case ArrowDown => if v == 1 then Some('4') else None
      case Flag => if v == 1 then Some('5') else None
      case Angle => if v == 1 then Some('7') else None
      case Dot => if v == 1 then Some('.') else None
      case Underscore => if v == 1 then Some('_') else None
      case Dash => if v == 1 then Some('-') else None
  }

  /** Different characters have different shapes: the owner of a character's shape is
      the character itself. */
  lemma OwnerOfEntry(c: char)
    requires Allowed(c)
    ensures ShapeOwner(ShapeEntry(c).value.kind, ShapeEntry(c).value.variant) == Some(c)
  {
    if 'A' <= c <= 'G' {
      OwnerBetweenAG(c);
    } else if 'H' <= c <= 'N' {
      OwnerBetweenHN(c);
    } else if 'O' <= c <= 'T' {
      OwnerBetweenOT(c);
    } else if 'U' <= c <= 'Z' {
      OwnerBetweenUZ(c);
    } else if '0' <= c <= '4' {
      OwnerBetween0And4(c);
    } else if '5' <= c <= '9' {
      OwnerBetween5And9(c);
    } else {
      OwnerOfSpecial(c);
    }
  }

  lemma OwnerBetweenAG(c: char)
    requires 'A' <= c <= 'G'
    ensures ShapeOwner(ShapeEntry(c).value.kind, ShapeEntry(c).value.variant) == Some(c)
  {
    if c == 'A' {
    } else if c == 'B' {
    } else if c == 'C' {
    } else if c == 'D' {
    } else if c == 'E' {
    } else if c == 'F' {
    } else {
    }
  }

  lemma OwnerBetweenHN(c: char)
    requires 'H' <= c <= 'N'
    ensures ShapeOwner(ShapeEntry(c).value.kind, ShapeEntry(c).value.variant) == Some(c)
  {
    if c == 'H' {
    } else if c == 'I' {
    } else if c == 'J' {
    } else if c == 'K' {
    } else if c == 'L' {
    } else if c == 'M' {
    } else {
    }
  }

  lemma OwnerBetweenOT(c: char)
    requires 'O' <= c <= 'T'
    ensures ShapeOwner(ShapeEntry(c).value.kind, ShapeEntry(c).value.variant) == Some(c)
  {
    if c == 'O' {
    } else if c == 'P' {
    } else if c == 'Q' {
    } else if c == 'R' {
    } else if c == 'S' {
    } else {
    }
  }

  lemma OwnerBetweenUZ(c: char)
    requires 'U' <= c <= 'Z'
    ensures ShapeOwner(ShapeEntry(c).value.kind, ShapeEntry(c).value.variant) == Some(c)
  {
    if c == 'U' {
    } else if c == 'V' {
    } else if c == 'W' {
    } else if c == 'X' {
    } else if c == 'Y' {
    } else {
    }
  }

  lemma OwnerBetween0And4(c: char)
    requires '0' <= c <= '4'
    ensures ShapeOwner(ShapeEntry(c).value.kind, ShapeEntry(c).value.variant) == Some(c)
  {
    if c == '0' {
    } else if c == '1' {
    } else if c == '2' {
    } else if c == '3' {
    } else {
    }
  }

  lemma OwnerBetween5And9(c: char)
    requires '5' <= c <= '9'
    ensures ShapeOwner(ShapeEntry(c).value.kind, ShapeEntry(c).value.variant) == Some(c)
  {
    if c == '5' {
    } else if c == '6' {
    } else if c == '7' {
    } else if c == '8' {
    } else {
    }
  }

  lemma OwnerOfSpecial(c: char)
    requires c == '@' || c == '.' || c == '_' || c == '-' || c == '+'
    ensures ShapeOwner(ShapeEntry(c).value.kind, ShapeEntry(c).value.variant) == Some(c)
  {
    if c == '@' {
    } else if c == '.' {
    } else if c == '_' {
    } else if c == '-' {
    } else {
    }
  }

  lemma TypeNameInjective(a: ShapeType, b: ShapeType)
    requires TypeName(a) == TypeName(b)
    ensures a == b
  {
    TypeFeaturesInverse(a);
    TypeFeaturesInverse(b);
  }

  /** `${shape.type}-${shape.variant}`: the text a shape is recorded under. */
  function ShapeKey(t: ShapeType, v: nat): string {
    TypeName(t) + "-" + NatToString(v)
  }

  /** The key text tells the shapes apart: the variant is the digits after the last
      `-`, and the type is the name before it. */
  lemma ShapeKeyInjective(a: ShapeType, v: nat, b: ShapeType, w: nat)
    requires ShapeKey(a, v) == ShapeKey(b, w)
    ensures a == b && v == w
  {
    SplitAtLastDash(TypeName(a), NatToString(v), TypeName(b), NatToString(w));
    NatToStringInjective(v, w);
    TypeNameInjective(a, b);
  }

  /** Two texts `x-m` and `y-n` whose tails m and n are digits agree exactly when
      x, y and m, n do. */
  lemma SplitAtLastDash(x: string, m: string, y: string, n: string)
    requires forall i :: 0 <= i < |m| ==> '0' <= m[i] <= '9'
    requires forall i :: 0 <= i < |n| ==> '0' <= n[i] <= '9'
    requires x + "-" + m == y + "-" + n
    ensures x == y && m == n
  {
    var k := x + "-" + m;
    assert k[|k| - |m| - 1] == '-' && k[|k| - |n| - 1] == '-';
    assert forall i :: |k| - |m| <= i < |k| ==> k[i] == m[i - (|k| - |m|)];
    assert forall i :: |k| - |n| <= i < |k| ==> k[i] == n[i - (|k| - |n|)];
    assert |m| == |n|;
    assert m == k[|k| - |m|..] == n;
    assert x == k[..|k| - |m| - 1] == y;
  }

  /** `CHARACTER_SHAPE_MAP[k]`: only one-character keys are in the table. */
  function ShapeMapGet(k: string): (r: Option<ShapeDefinition>)
    ensures r.Some? <==> |k| == 1 && Allowed(k[0])
    ensures r.Some? ==> r.value.character == k
  {
    if |k| == 1 then ShapeEntry(k[0]) else None
  }

  /** What `getShapeForCharacter` returns for a key the table does not hold. */
  function Fallback(upper: string): ShapeDefinition {
    ShapeDefinition(upper, Dot, 1, "Unknown", "Fallback shape")
  }

  /** `getShapeForCharacter(char)`: the table entry of the upper-cased text, and
      otherwise a dot labelled `Unknown`. */
  function GetShapeForCharacter(s: string): (d: ShapeDefinition)
    ensures d.character == UpperAscii(s)
    ensures |s| == 1 && Allowed(UpperChar(s[0])) ==> d == ShapeEntry(UpperChar(s[0])).value
    ensures !(|s| == 1 && Allowed(UpperChar(s[0]))) ==>
              d.kind == Dot && d.variant == 1 && d.labelText == "Unknown" && d.description == "Fallback shape"
  {
    var upper := UpperAscii(s);
    assert |s| == 1 ==> upper[0] == UpperChar(s[0]);
    match ShapeMapGet(upper)
      case Some(entry) => entry
      case None => Fallback(upper)
  }

  /** Upper-casing first changes nothing. */
  lemma GetShapeCaseInsensitive(s: string)
    ensures GetShapeForCharacter(UpperAscii(s)) == GetShapeForCharacter(s)
  {
    UpperAsciiIdempotent(s);
  }

  /** `a` and `A` both give the upward triangle. */
  lemma LowerAndUpperA()
    ensures GetShapeForCharacter("a") == GetShapeForCharacter("A")
    ensures GetShapeForCharacter("a").kind == Triangle && GetShapeForCharacter("a").variant == 1
  {
    assert UpperAscii("a") == "A";
  }

  /** The fallback is recorded under the same key as the real entry for `.`: a
      fallback shape cannot be told from the dot by its key. */
  lemma FallbackSharesDotKey(s: string)
    requires !(|s| == 1 && Allowed(UpperChar(s[0])))
    ensures var d := GetShapeForCharacter(s);
            ShapeKey(d.kind, d.variant) == ShapeKey(ShapeEntry('.').value.kind, ShapeEntry('.').value.variant)
  {
  }

  /** The letters, digits and punctuation of the table, in the order written. */
  function Letters(): (s: string)
    ensures |s| == 26 && forall i :: 0 <= i < 26 ==> s[i] == (65 + i) as char
  {
    seq(26, i requires 0 <= i < 26 => (65 + i) as char)
  }

  function Digits(): (s: string)
    ensures |s| == 10 && forall i :: 0 <= i < 10 ==> s[i] == (48 + i) as char
  {
    seq(10, i requires 0 <= i < 10 => (48 + i) as char)
  }

  /** The one-character keys of s. */
  function Singles(s: string): (ks: seq<string>)
    ensures |ks| == |s|
    ensures forall i :: 0 <= i < |s| ==> ks[i] == [s[i]]
  {
    seq(|s|, i requires 0 <= i < |s| => [s[i]])
  }

  /** The keys of `CHARACTER_SHAPE_MAP` in the order the object literal creates them. */
  function DeclaredKeys(): seq<string> {
    Singles(Letters()) + Singles(Digits()) + Singles(Specials)
  }

  /** `ALL_CHARACTERS = Object.keys(CHARACTER_SHAPE_MAP)`. */
  function AllCharacters(): seq<string> {
    OwnKeys(DeclaredKeys())
  }

  /** The characters of the table in `Object.keys` order. */
  function KeyOrder(): (s: string)
    ensures |s| == 41
  {
    Digits() + Letters() + Specials
  }

  /** The place of an allowed character in `KeyOrder()`. */
  function KeyPosition(c: char): int {
    if IsDecimalDigit(c) then c as int - 48
    else if IsUpperLetter(c) then c as int - 55
    else if c == '@' then 36
    else if c == '.' then 37
    else if c == '_' then 38
    else if c == '-' then 39
    else 40
  }

  lemma KeyPositionOfEach(i: int)
    requires 0 <= i < 41
    ensures Allowed(KeyOrder()[i]) && KeyPosition(KeyOrder()[i]) == i
  {
    var s := KeyOrder();
    if i < 10 {
      assert s[i] == Digits()[i];
    } else if i < 36 {
      assert s[i] == Letters()[i - 10];
    } else {
      assert s[i] == Specials[i - 36];
    }
  }

  lemma KeyPositionInverse(c: char)
    requires Allowed(c)
    ensures 0 <= KeyPosition(c) < 41 && KeyOrder()[KeyPosition(c)] == c
  {
    var s := KeyOrder();
    var i := KeyPosition(c);
    if IsDecimalDigit(c) {
      assert s[i] == Digits()[i];
    } else if IsUpperLetter(c) {
      assert s[i] == Letters()[i - 10];
    } else {
      assert s[i] == Specials[i - 36];
    }
  }

  lemma SinglesAppend(a: string, b: string)
    ensures Singles(a + b) == Singles(a) + Singles(b)
  {
  }

  /** The digits come first, then the letters, then the punctuation: 41 keys. */
  lemma AllCharactersOrder()
    ensures AllCharacters() == Singles(Digits()) + Singles(Letters()) + Singles(Specials)
    ensures AllCharacters() == Singles(KeyOrder())
    ensures |AllCharacters()| == 41
  {
    var a, b, c := Singles(Letters()), Singles(Digits()), Singles(Specials);
    forall i | 0 <= i < |a|
      ensures !IsArrayIndex(a[i])
    {
      NonDigitIsNoIndex(Letters()[i]);
    }
    forall i | 0 <= i < |b|
      ensures IsArrayIndex(b[i]) && IndexValue(b[i]) == i
    {
      DigitIsIndex(Digits()[i]);
    }
    forall i | 0 <= i < |c|
      ensures !IsArrayIndex(c[i])
    {
      NonDigitIsNoIndex(Specials[i]);
    }
    IndicesMoveFirst(a, b, c);
    SinglesAppend(Digits(), Letters());
    SinglesAppend(Digits() + Letters(), Specials);
  }

  /** `ALL_CHARACTERS` names exactly the table's keys. */
  lemma AllCharactersAreTheKeys()
    ensures forall k :: k in AllCharacters() <==> ShapeMapGet(k).Some?
  {
    AllCharactersAllowed();
  }

  lemma AllCharactersAllowed()
    ensures forall k :: k in AllCharacters() <==> |k| == 1 && Allowed(k[0])
  {
    AllCharactersOrder();
    var all := AllCharacters();
    forall k | k in all
      ensures |k| == 1 && Allowed(k[0])
    {
      var i :| 0 <= i < |all| && all[i] == k;
      KeyPositionOfEach(i);
    }
    forall k | |k| == 1 && Allowed(k[0])
      ensures k in all
    {
      KeyPositionInverse(k[0]);
      assert all[KeyPosition(k[0])] == k;
    }
  }

  /** No key is listed twice. */
  lemma AllCharactersDistinct()
    ensures forall i, j :: 0 <= i < j < |AllCharacters()| ==> AllCharacters()[i] != AllCharacters()[j]
  {
    AllCharactersOrder();
    var all := AllCharacters();
    forall i, j | 0 <= i < j < |all|
      ensures all[i] != all[j]
    {
      KeyPositionOfEach(i);
      KeyPositionOfEach(j);
      assert all[i][0] == KeyOrder()[i] && all[j][0] == KeyOrder()[j];
    }
  }
}
