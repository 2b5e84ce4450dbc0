/** `CHARACTER_PALETTES` and `getCharacterPalette`: three colours (core, mid, dark) per
    character of the avatar alphabet, and a violet default for anything else. Colours
    are held as 24-bit RGB values; `ColourText` writes them the way the table spells
    them, `#` and six upper-case hex digits. */
module Palettes {
  import opened JsSemantics
  import opened Optional
  import opened Alphabet

  type Rgb = n: nat | n < 0x100_0000

  /** Core, mid and dark colour. */
  type Palette = p: seq<Rgb> | |p| == 3 witness [0, 0, 0]

  function HexDigit(d: nat): (c: char)
    requires d < 16
    ensures IsHexDigit(c)
  {
    if d < 10 then (48 + d) as char else (55 + d) as char
  }

  predicate IsHexDigit(c: char) {
    '0' <= c <= '9' || 'A' <= c <= 'F'
  }

  /** The hex digits of n, most significant first, padded to `width`. */
  function HexDigits(n: nat, width: nat): (s: string)
    ensures |s| == width
    ensures forall i :: 0 <= i < |s| ==> IsHexDigit(s[i])
  {
    if width == 0 then [] else HexDigits(n / 16, width - 1) + [HexDigit(n % 16)]
  }

  /** The CSS text of a colour, e.g. `#FF4444`. */
  function ColourText(c: Rgb): (s: string)
    ensures |s| == 7 && s[0] == '#'
    ensures forall i :: 1 <= i < 7 ==> IsHexDigit(s[i])
  {
    "#" + HexDigits(c, 6)
  }

  /** `CHARACTER_PALETTES[k]` for a one-character key k. */
  function PaletteEntry(c: char): (r: Option<Palette>)
    ensures r.Some? <==> Allowed(c)
    ensures r.Some? ==> |r.value| == 3
  {
    if IsUpperLetter(c) then LetterPalette(c)
    else if IsDecimalDigit(c) then DigitPalette(c)
    else SpecialPalette(c)
  }

  /** Letters A-Z. */
  function LetterPalette(c: char): Option<Palette> {
    match c as int
      case 65 => Some([0xFF_4444, 0xCC_2222, 0x88_1111])
      case 66 => Some([0x00_D9B5, 0x00_9E7F, 0x00_6B55])
      case 67 => Some([0x00_B4D8, 0x00_77B6, 0x00_4D73])
      case 68 => Some([0x2D_D4BF, 0x0D_9488, 0x06_5F5B])
      case 69 => Some([0xFB_BF24, 0xD9_7706, 0x92_400E])
      case 70 => Some([0xE8_79F9, 0xC0_26D3, 0x7E_22CE])
      case 71 => Some([0x34_D399, 0x05_9669, 0x06_5F46])
      case 72 => Some([0xFC_D34D, 0xF5_9E0B, 0xB4_5309])
      case 73 => Some([0xA7_8BFA, 0x7C_3AED, 0x5B_21B6])
      case 74 => Some([0x38_BDF8, 0x02_84C7, 0x07_5985])
      case 75 => Some([0xFB_923C, 0xEA_580C, 0x9A_3412])
      case 76 => Some([0x4A_DE80, 0x16_A34A, 0x16_6534])
      case 77 => Some([0xF8_7171, 0xDC_2626, 0x99_1B1B])
      case 78 => Some([0x94_A3B8, 0x64_748B, 0x47_5569])
      case 79 => Some([0x2D_D4BF, 0x14_B8A6, 0x0F_766E])
      case 80 => Some([0xFB_7185, 0xE1_1D48, 0x9F_1239])
      case 81 => Some([0xC0_84FC, 0x93_33EA, 0x6B_21A8])
      case 82 => Some([0x60_A5FA, 0x25_63EB, 0x1E_40AF])
      case 83 => Some([0x5E_EAD4, 0x14_B8A6, 0x0D_9488])
      case 84 => Some([0xFD_E047, 0xEA_B308, 0xA1_6207])
      case 85 => Some([0xF4_72B6, 0xDB_2777, 0x9D_174D])
      case 86 => Some([0x7D_D3FC, 0x0E_A5E9, 0x03_69A1])
      case 87 => Some([0x6E_E7B7, 0x10_B981, 0x04_7857])
      case 88 => Some([0xFE_F08A, 0xFA_CC15, 0xCA_8A04])
      case 89 => Some([0xD8_B4FE, 0xA8_55F7, 0x7E_22CE])
      case 90 => Some([0x93_C5FD, 0x3B_82F6, 0x1D_4ED8])
      case _ => None
  }

  /** Digits 0-9. */
  function DigitPalette(c: char): Option<Palette> {
    match c as int
      case 48 => Some([0xFF_7849, 0xEA_580C, 0xC2_410C])
      case 49 => Some([0xFF_5722, 0xD8_4315, 0xBF_360C])
      case 50 => Some([0x00_BCD4, 0x00_97A7, 0x00_838F])
      case 51 => Some([0x00_E676, 0x00_C853, 0x00_A044])
      case 52 => Some([0x7C_4DFF, 0x65_1FFF, 0x4A_148C])
      case 53 => Some([0xFF_4081, 0xF5_0057, 0xC5_1162])
      case 54 => Some([0x44_8AFF, 0x29_79FF, 0x29_62FF])
      case 55 => Some([0xE0_40FB, 0xD5_00F9, 0xAA_00FF])
      case 56 => Some([0x00_E676, 0x00_C853, 0x00_9624])
      case 57 => Some([0xFF_4081, 0xF5_0057, 0xAD_1457])
      case _ => None
  }

  /** The five punctuation characters. */
  function SpecialPalette(c: char): Option<Palette> {
    match c as int
      case 64 => Some([0x7C_4DFF, 0x53_6DFE, 0x3D_5AFE])
      case 46 => Some([0xE0_40FB, 0xAA_00FF, 0x7B_1FA2])
      case 95 => Some([0x00_BFA5, 0x00_897B, 0x00_695C])
      case 45 => Some([0xFF_6E40, 0xFF_3D00, 0xDD_2C00])
      case 43 => Some([0x69_F0AE, 0x00_E676, 0x00_C853])
      case _ => None
  }

  const DefaultPalette: Palette := [0x8B_5CF6, 0x7C_3AED, 0x5B_21B6]

  /** `getCharacterPalette(char)`: the entry of the upper-cased argument, or the default
      when the table has no such key. */
  function GetCharacterPalette(s: string): (r: Palette)
    ensures |r| == 3
    ensures var u := UpperAscii(s); r == if |u| == 1 && Allowed(u[0]) then PaletteEntry(u[0]).value else DefaultPalette
  {
    var u := UpperAscii(s);
    if |u| == 1 then
      match PaletteEntry(u[0])
      case Some(p) => p
      case None => DefaultPalette
    else DefaultPalette
  }

  /** Different colours are written differently. */
  lemma {:induction false} HexDigitsInjective(a: nat, b: nat, width: nat)
    requires a < Pow16(width) && b < Pow16(width)
    requires HexDigits(a, width) == HexDigits(b, width)
    ensures a == b
  {
    if width > 0 {
      var s := HexDigits(a, width);
      assert s[width - 1] == HexDigit(a % 16) == HexDigit(b % 16);
      assert s[..width - 1] == HexDigits(a / 16, width - 1) == HexDigits(b / 16, width - 1);
      HexDigitsInjective(a / 16, b / 16, width - 1);
    }
  }

  function Pow16(k: nat): (p: nat)
    ensures p >= 1
  {
    if k == 0 then 1 else 16 * Pow16(k - 1)
  }

  /** No character of the alphabet is drawn in the default colours, so the default
      appears exactly for arguments outside the table. */
  lemma DefaultOnlyOutsideTable(s: string)
    ensures GetCharacterPalette(s) == DefaultPalette <==>
              !(|UpperAscii(s)| == 1 && Allowed(UpperAscii(s)[0]))
  {
    var u := UpperAscii(s);
    if |u| == 1 && Allowed(u[0]) {
      EntryNotDefault(u[0]);
    }
  }

  lemma EntryNotDefault(c: char)
    requires Allowed(c)
    ensures PaletteEntry(c).value[0] != DefaultPalette[0]
  {
  }

  /** Upper-casing the argument first changes nothing. */
  lemma PaletteCaseInsensitive(s: string)
    ensures GetCharacterPalette(UpperAscii(s)) == GetCharacterPalette(s)
  {
    UpperAsciiIdempotent(s);
  }
}
