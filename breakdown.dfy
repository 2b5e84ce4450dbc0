/** `processEmail`: the per-character breakdown shown beside an avatar. Each character
    of the normalised address gets its core colour, one of five shape names in turn,
    the pattern `cosmic` and a rotation stepping by 45 degrees. */
module Breakdown {
  import opened JsSemantics
  import opened Alphabet
  import opened Palettes
  import opened Layout
  import opened LayoutProperties

  datatype CharInfo = CharInfo(character: char, color: string, shape: string, pattern: string, rotation: nat)

  /** The shape names in the order the breakdown cycles through them. */
  const ShapeCycle: seq<string> := ["glow-orb", "crystal", "ring", "arc", "star"]

  /** The entry of character c at position index. */
  function Describe(c: char, index: nat): (info: CharInfo)
    ensures info.character == c && info.pattern == "cosmic"
    ensures info.shape == ShapeCycle[index % 5]
    ensures info.rotation == 45 * (index % 8) && info.rotation < 360
  {
    RotationOfIndex(index);
    CharInfo(c, ColourText(GetCharacterPalette([c])[0]), ShapeCycle[index % 5], "cosmic", (index * 45) % 360)
  }

  /** `processEmail(email)`: one entry per normalised character, in order. */
  function ProcessEmail(email: string): (infos: seq<CharInfo>)
    ensures |infos| == |Normalize(email)|
    ensures forall i :: 0 <= i < |infos| ==>
              && infos[i].character == Normalize(email)[i] && infos[i].pattern == "cosmic"
              && infos[i].color == ColourText(GetCharacterPalette([Normalize(email)[i]])[0])
              && infos[i].shape == ShapeCycle[i % 5] && infos[i].rotation == 45 * (i % 8)
  {
    var chars := Normalize(email);
    seq(|chars|, i requires 0 <= i < |chars| => Describe(chars[i], i))
  }

  /** The shapes repeat every five characters, starting with `glow-orb`. */
  lemma ShapesCycle(email: string)
    ensures var infos := ProcessEmail(email);
            && (|infos| > 0 ==> infos[0].shape == "glow-orb")
            && forall i :: 0 <= i < |infos| - 5 ==> infos[i + 5].shape == infos[i].shape
  {
    var infos := ProcessEmail(email);
    forall i | 0 <= i < |infos| - 5
      ensures infos[i + 5].shape == infos[i].shape
    {
      ShapeIndexStep(i);
    }
  }

  lemma ShapeIndexStep(i: nat)
    ensures (i + 5) % 5 == i % 5
  {
  }

  /** Entry i is turned by 45 degrees times i mod 8: a multiple of 45 below 360 that
      comes back every eight characters. */
  lemma RotationSteps(email: string)
    ensures var infos := ProcessEmail(email);
            && (forall i :: 0 <= i < |infos| ==> infos[i].rotation == 45 * (i % 8))
            && forall i :: 0 <= i < |infos| - 8 ==> infos[i + 8].rotation == infos[i].rotation
  {
    var infos := ProcessEmail(email);
    forall i | 0 <= i < |infos| - 8
      ensures infos[i + 8].rotation == infos[i].rotation
    {
      RotationIndexStep(i);
    }
  }

  lemma RotationIndexStep(i: nat)
    ensures (i + 8) % 8 == i % 8
  {
  }

  lemma RotationOfIndex(i: nat)
    ensures (i * 45) % 360 == 45 * (i % 8)
  {
    var q, r := i / 8, i % 8;
    assert i * 45 == 360 * q + 45 * r;
  }

  /** Letter case makes no difference to the breakdown. */
  lemma BreakdownCaseInsensitive(email: string)
    ensures ProcessEmail(UpperAscii(email)) == ProcessEmail(email)
  {
    NormalizeCaseInsensitive(email);
  }

  /** Every character of the breakdown is in the table, so none shows the default
      violet. */
  lemma NeverDefaultColour(email: string)
    ensures forall info :: info in ProcessEmail(email) ==> info.color != ColourText(DefaultPalette[0])
  {
    var chars := Normalize(email);
    forall info | info in ProcessEmail(email)
      ensures info.color != ColourText(DefaultPalette[0])
    {
      var i :| 0 <= i < |chars| && ProcessEmail(email)[i] == info;
      var c := chars[i];
      assert Allowed(c);
      assert UpperAscii([c]) == [c];
      EntryNotDefault(c);
      var p := GetCharacterPalette([c]);
      if HexDigits(p[0], 6) == HexDigits(DefaultPalette[0], 6) {
        assert Pow16(6) == 0x100_0000;
        HexDigitsInjective(p[0], DefaultPalette[0], 6);
      }
      assert ColourText(p[0])[1..] == HexDigits(p[0], 6);
      assert ColourText(DefaultPalette[0])[1..] == HexDigits(DefaultPalette[0], 6);
    }
  }

  /** The first six entries carry the core colour of the crystal drawn for the same
      character in `generateLayers`, whose scene takes its characters and colours
      from the same address (`SceneOf`). */
  lemma AgreesWithCrystals(email: string, sc: Scene)
    requires sc.chars == Normalize(email) && sc.palette == GetCharacterPalette
    ensures var infos := ProcessEmail(email);
            var crystals := Groups(sc)[3];
            && |crystals| == (if |infos| < 6 then |infos| else 6)
            && forall i :: 0 <= i < |crystals| ==>
                 && crystals[i].colors == GetCharacterPalette([infos[i].character])
                 && infos[i].color == ColourText(crystals[i].colors[0])
  {
    CrystalColours(sc);
  }
}
