# Cavatar avatar engine in Dafny

Cavatar turns an e-mail address into a deterministic "cosmic" avatar. This project
models the engine's two library files and proves what they promise:

- `src/lib/avatarGenerator.ts`, in these Dafny modules:
  - `AvatarHash`: the DJB2-xor hash of the address's UTF-16 code units, with JavaScript's
    int32 wrap-around and the final `Math.abs`.
  - `Prng`: the linear-congruential `seededRandom` closure. It is a class whose `seed`
    field each call updates. Ghost fields hold the starting seed and the number of calls.
  - `Palettes`: the 41-entry colour table and the case-insensitive `getCharacterPalette`
    with its violet default.
  - `Alphabet`: the normalisation `toUpperCase().replace(/[^A-Z0-9@._\-+]/g, '')`.
  - `Layout` and `LayoutProperties`: the six layer groups of `generateLayers` as a
    specification over the stream of draws (counts, ranges, colours, drawing order).
  - `LayerGeneration`: the loops of `generateLayers`, proved against that specification.
  - `Breakdown`: `processEmail`.
  - `AvatarSvg`: `generateAvatarSVG`: its hues, and the string-appending loops proved
    against a specification of the document.
- `src/lib/characterShapes.ts`, in these Dafny modules:
  - `CharacterShapes`: the glyph table, `getShapeForCharacter` and `ALL_CHARACTERS`.
  - `PropertyOrder`: the order in which `Object.keys` and `Object.entries` visit keys:
    array indices ascending first, then the other keys in creation order. This is
    section 10.1.11.1 of ECMA-262.
  - `UniqueShapes`: the `verifyUniqueShapes` loop with its `seen` map and `duplicates`
    array.

`JsSemantics` gathers the pieces of JavaScript that the engine relies on:
- ToInt32 and ToUint32;
- `^` on int32 operands;
- the truncating `%`;
- ASCII `toUpperCase`;
- the rounding of large products to doubles;
- UTF-16 code units;
- the decimal text of a non-negative integer.

The place where rounding matters is the PRNG. `seed * 1103515245` exceeds 2^53, so
JavaScript rounds it to a double before `& 0x7fffffff`. The model does the same, and
proves that no state ever becomes `0x7fffffff`. So every draw lies in [0, 1), and every
"2-3", "3-4" and "4-6" count comment in `generateLayers` holds. With exact integer
arithmetic, the seed 230538014 would step to `0x7fffffff` and yield the draw 1.0.

## Model

| member | source | states |
|---|---|---|
| JsSemantics.ToInt32 | src/lib/avatarGenerator.ts:31 | the result lies in the int32 range, is congruent to the input modulo 2^32, and leaves int32 inputs unchanged |
| JsSemantics.ToUint32 | src/lib/avatarGenerator.ts:31 | the result lies in [0, 2^32) and is congruent to the input modulo 2^32 |
| JsSemantics.Xor32 | src/lib/avatarGenerator.ts:31 | `a ^ b` is a signed 32-bit integer |
| JsSemantics.ToInt32Congruent | src/lib/avatarGenerator.ts:31 | ToInt32 depends only on the residue modulo 2^32 |
| JsSemantics.JsRem | src/lib/avatarGenerator.ts:461-462 | JavaScript `%` is the Euclidean remainder for a non-negative dividend, and for a negative one it is the negated remainder of its magnitude, in (-b, 0] |
| JsSemantics.Ulp | src/lib/avatarGenerator.ts:38 | the spacing of doubles near x is 1 below 2^53, and at or above 2^53 it is even with u·2^52 <= x |
| JsSemantics.RoundToDouble | src/lib/avatarGenerator.ts:38 | integers below 2^53 are exact; larger ones round to an even value that stays at or above 2^53 |
| JsSemantics.UpperChar | src/lib/avatarGenerator.ts:55 | the result is never a lower-case ASCII letter, and other characters are unchanged |
| JsSemantics.UpperAscii | src/lib/avatarGenerator.ts:55 | upper-casing keeps the length |
| JsSemantics.UpperAsciiIdempotent | src/lib/avatarGenerator.ts:55 | upper-casing twice is upper-casing once |
| JsSemantics.UpperAsciiAppend | src/lib/avatarGenerator.ts:62 | upper-casing distributes over concatenation |
| JsSemantics.Utf16Units | src/lib/avatarGenerator.ts:31 | a character is one or two code units below 0x10000, and a BMP character is its own code |
| JsSemantics.CodeUnits | src/lib/avatarGenerator.ts:30-31 | a string has between \|s\| and 2·\|s\| code units, each below 0x10000 |
| JsSemantics.CodeUnitsAppend | src/lib/avatarGenerator.ts:30-31 | the code units of a concatenation are the concatenation of the code units |
| JsSemantics.NatToString | src/lib/avatarGenerator.ts:477 | the decimal text is non-empty, all digits, and one digit exactly below 10 |
| JsSemantics.NatToStringInjective | src/lib/avatarGenerator.ts:486 | different numbers have different decimal texts |
| AvatarHash.Mix | src/lib/avatarGenerator.ts:31 | one round `((hash << 5) + hash) ^ code` yields an int32 |
| AvatarHash.HashFrom | src/lib/avatarGenerator.ts:29-32 | after at least one code unit the accumulator is an int32, and with none it is the start value |
| AvatarHash.Hash | src/lib/avatarGenerator.ts:28-34 | the hash is at most 2^31 |
| AvatarHash.HashString | src/lib/avatarGenerator.ts:28-34 | the loop computes `Hash(s)` |
| AvatarHash.HashOfEmpty | src/lib/avatarGenerator.ts:29-33 | the empty string hashes to 5381 |
| AvatarHash.HashTopValue | src/lib/avatarGenerator.ts:33 | the hash is 2^31 exactly when the accumulator ends at -2^31, the one value `Math.abs` leaves outside int32 |
| AvatarHash.MixMultipliesBy33 | src/lib/avatarGenerator.ts:31 | the shift-and-add is multiplication by 33 before the XOR |
| AvatarHash.HashFromConcat | src/lib/avatarGenerator.ts:30-32 | hashing a + b continues from the accumulator of a |
| AvatarHash.HashOfConcat | src/lib/avatarGenerator.ts:28-34 | the hash of s + t is the hash of t started from the signed accumulator of s |
| AvatarHash.HashOfOneChar | src/lib/avatarGenerator.ts:29-33 | a one-character BMP string hashes to \|177573 ^ code\| |
| Alphabet.KeepAllowed | src/lib/avatarGenerator.ts:62 | the filter keeps only allowed characters, never grows, and is the identity on strings already allowed |
| Alphabet.Normalize | src/lib/avatarGenerator.ts:62 | the `chars` array is no longer than the address and holds only `[A-Z0-9@._\-+]` |
| Alphabet.KeepAllowedAppend | src/lib/avatarGenerator.ts:62 | the filter distributes over concatenation |
| Alphabet.KeepAllowedMembers | src/lib/avatarGenerator.ts:62 | a character survives exactly when it occurs and is allowed |
| Alphabet.NormalizeAppend | src/lib/avatarGenerator.ts:62 | normalising a + b is normalising a, then b |
| Alphabet.NormalizeIdempotent | src/lib/avatarGenerator.ts:62 | a normalised address is its own normal form |
| Alphabet.NormalizeCaseInsensitive | src/lib/avatarGenerator.ts:62 | letter case does not change the characters |
| Alphabet.NormalizeMembers | src/lib/avatarGenerator.ts:62 | c is a character of the avatar exactly when c is allowed and some character of the address upper-cases to c |
| Prng.NextSeed | src/lib/avatarGenerator.ts:38 | with double rounding, the next state is never `0x7fffffff` |
| Prng.NextSeedNotMask | src/lib/avatarGenerator.ts:38 | the rounded `seed * 1103515245 + 12345` never has the residue `0x7fffffff` |
| Prng.EvenResidue | src/lib/avatarGenerator.ts:38 | an even number never has the residue `0x7fffffff` modulo 2^31 |
| Prng.ExactStepPreimage | src/lib/avatarGenerator.ts:38 | under exact arithmetic only seeds congruent to 230538014 step to `0x7fffffff` |
| Prng.Unit | src/lib/avatarGenerator.ts:39 | `seed / 0x7fffffff` lies in [0, 1) for every reachable state |
| Prng.SeedAfter | src/lib/avatarGenerator.ts:36-40 | after at least one call the state is below `0x7fffffff`, and after none it is the seed |
| Prng.Draw | src/lib/avatarGenerator.ts:37-40 | the k-th value of the closure lies in [0, 1) |
| Prng.Draws | src/lib/avatarGenerator.ts:37-40 | the first n values, in call order |
| Prng.SeededRandom.constructor | src/lib/avatarGenerator.ts:36 | a new closure starts at its seed with no calls made |
| Prng.SeededRandom.Next | src/lib/avatarGenerator.ts:37-40 | a call advances the captured seed one step and returns the next value of the stream |
| Prng.SeedAfterAdd | src/lib/avatarGenerator.ts:36-40 | k calls then j calls are k + j calls |
| Prng.DrawShift | src/lib/avatarGenerator.ts:36-40 | the j-th draw after k calls is draw k + j |
| Prng.SameSeedSameSequence | src/lib/avatarGenerator.ts:36-40 | two closures made from the same seed return the same values |
| Palettes.HexDigit | src/lib/avatarGenerator.ts:5-25 | a digit below 16 becomes a hex digit character |
| Palettes.HexDigits | src/lib/avatarGenerator.ts:5-25 | a fixed-width hex text has that width and only hex digits |
| Palettes.ColourText | src/lib/avatarGenerator.ts:5-25 | a colour is written `#` and six hex digits |
| Palettes.PaletteEntry | src/lib/avatarGenerator.ts:4-26 | the table has an entry of three colours exactly for the 41 allowed characters |
| Palettes.GetCharacterPalette | src/lib/avatarGenerator.ts:54-57 | three colours: the entry of the upper-cased one-character key, or else the violet default |
| Palettes.Pow16 | src/lib/avatarGenerator.ts:5-25 | powers of 16 are positive |
| Palettes.HexDigitsInjective | src/lib/avatarGenerator.ts:5-25 | two numbers below 16^width with the same fixed-width hex text are equal |
| Palettes.DefaultOnlyOutsideTable | src/lib/avatarGenerator.ts:56 | the default is returned exactly for keys outside the table |
| Palettes.EntryNotDefault | src/lib/avatarGenerator.ts:4-26 | no table entry starts with the default violet |
| Palettes.PaletteCaseInsensitive | src/lib/avatarGenerator.ts:55 | upper-casing first changes nothing |
| Layout.StreamOf | src/lib/avatarGenerator.ts:61 | the draw stream of a scene is the closure's stream from the hash |
| Layout.SceneOf | src/lib/avatarGenerator.ts:60-62 | a scene takes its characters from the normalised address, its draws from the hash of the raw address, and its colours from `getCharacterPalette` |
| Layout.R | src/lib/avatarGenerator.ts:61 | every draw lies in [0, 1) |
| Layout.FloorScaled | src/lib/avatarGenerator.ts:67 | `Math.floor(rand() * n)` lies in [0, n) for n > 0 |
| Layout.FloorScaledBounds | src/lib/avatarGenerator.ts:69 | the floor of r·n lies in [0, n], and below n when n > 0 |
| Layout.Count | src/lib/avatarGenerator.ts:67 | `base + Math.floor(rand() * spread)` lies in [base, base + spread) |
| Layout.StepsReached | src/lib/avatarGenerator.ts:67 | counting which of the integers 1..m are at most x gives at most m |
| Layout.StepsReachedFloor | src/lib/avatarGenerator.ts:67 | that number is min(floor(x), cap), the `Math.floor` of the source |
| Layout.CountIsFloor | src/lib/avatarGenerator.ts:67 | the count is base plus the floor of r·spread |
| Layout.Pick | src/lib/avatarGenerator.ts:70 | `chars[charIndex] \|\| 'A'`: the character at the index when it is in range, else the fallback letter |
| Layout.ModIndex | src/lib/avatarGenerator.ts:89 | `(i * 2) % chars.length` is a valid index for a non-empty list and an out-of-range index (NaN) for an empty one |
| Layout.NebulaElement | src/lib/avatarGenerator.ts:69-83 | a nebula has blur 0.12·size, opacity in [0.2, 0.35) and rotation in [0, 360) |
| Layout.OrbElement | src/lib/avatarGenerator.ts:89-103 | a glow orb has blur 0.02·size, opacity in [0.85, 1) and rotation in [0, 360) |
| Layout.RingElement | src/lib/avatarGenerator.ts:109-121 | a ring has no blur, opacity in [0.6, 0.9) and rotation in [0, 360) |
| Layout.CrystalElement | src/lib/avatarGenerator.ts:127-140 | a crystal has no blur and opacity in [0.9, 1) |
| Layout.ArcElement | src/lib/avatarGenerator.ts:146-158 | the i-th arc has blur 0.005·size, opacity in [0.7, 0.9) and rotation in [90i, 90i + 60) |
| Layout.StarElement | src/lib/avatarGenerator.ts:164-178 | a star has blur 0.003·size, opacity in [0.8, 1) and rotation in [0, 360) |
| Layout.Nebulae | src/lib/avatarGenerator.ts:68-84 | the nebula loop yields one element per iteration |
| Layout.Orbs | src/lib/avatarGenerator.ts:88-104 | the orb loop yields one element per iteration |
| Layout.Rings | src/lib/avatarGenerator.ts:108-122 | the ring loop yields one element per iteration |
| Layout.Crystals | src/lib/avatarGenerator.ts:126-141 | the crystal loop yields one element per iteration |
| Layout.Arcs | src/lib/avatarGenerator.ts:145-159 | the arc loop yields one element per iteration |
| Layout.Stars | src/lib/avatarGenerator.ts:163-179 | the star loop yields one element per iteration |
| Layout.Groups | src/lib/avatarGenerator.ts:66-179 | the layers fall into the six groups, in order |
| LayoutProperties.PickColour | src/lib/avatarGenerator.ts:70 | an element coloured through `chars[idx] \|\| fallback` gets a character's palette |
| LayoutProperties.GroupsWellFormed | src/lib/avatarGenerator.ts:66-179 | every group holds only its own kind, with opacities in the stated ranges and colours taken from a character of the address (or the group's fallback letter) |
| LayoutProperties.CompositionWellFormed | src/lib/avatarGenerator.ts:59-182 | the layers come in drawing order, nebulae to stars, and each has its opacity range and a character's palette |
| LayoutProperties.GroupCounts | src/lib/avatarGenerator.ts:66-141 | there are 2 + floor(2r) nebulae, 3 + floor(2r) orbs and 2 + floor(2r) rings, each r being the draw at that point of the stream, and min(\|chars\|, 6) crystals |
| LayoutProperties.LaterGroupCounts | src/lib/avatarGenerator.ts:143-179 | there are 2 + floor(2r) arcs and 4 + floor(3r) stars, and the number of draws used is as the loops consume them |
| LayoutProperties.GroupCountRanges | src/lib/avatarGenerator.ts:66-179 | 2-3 nebulae, 3-4 orbs, 2-3 rings, at most 6 crystals, 2-3 arcs, 4-6 stars |
| LayoutProperties.NebulaSize | src/lib/avatarGenerator.ts:67-68 | the nebula count and the six draws each nebula consumes |
| LayoutProperties.OrbSize | src/lib/avatarGenerator.ts:87-88 | the orb count and the five draws each orb consumes |
| LayoutProperties.RingSize | src/lib/avatarGenerator.ts:107-108 | the ring count and the two draws each ring consumes |
| LayoutProperties.CrystalSize | src/lib/avatarGenerator.ts:125-126 | the crystal count and the five draws each crystal consumes |
| LayoutProperties.ArcSize | src/lib/avatarGenerator.ts:144-145 | the arc count and the three draws each arc consumes |
| LayoutProperties.StarSize | src/lib/avatarGenerator.ts:162-163 | the star count and the six draws each star consumes |
| LayoutProperties.RingGeometry | src/lib/avatarGenerator.ts:112-121 | ring i is centred, has size 0.2·size + 0.12·i·size, and has no blur |
| LayoutProperties.ArcGeometry | src/lib/avatarGenerator.ts:149-158 | arc i is centred, has size 0.25·size + 0.08·i·size, and has rotation in [90i, 90i + 60) |
| LayoutProperties.CrystalColours | src/lib/avatarGenerator.ts:125-127 | crystal i takes the palette of character i |
| LayoutProperties.EmptyAddress | src/lib/avatarGenerator.ts:66-179 | an address with no allowed character has at least 13 layers, no crystal, and each layer coloured by its group's fallback letter A-E |
| LayerGeneration.GenerateLayers | src/lib/avatarGenerator.ts:59-182 | the method returns exactly the layer plan of the address |
| LayerGeneration.PushLayers | src/lib/avatarGenerator.ts:63-181 | the six loops produce the composition and consume exactly the draws it uses |
| LayerGeneration.NextCount | src/lib/avatarGenerator.ts:67 | a count consumes one draw |
| LayerGeneration.PushNebulae | src/lib/avatarGenerator.ts:67-84 | the nebula loop yields the nebula group |
| LayerGeneration.PushNebula | src/lib/avatarGenerator.ts:69-83 | one nebula, from its six draws |
| LayerGeneration.PushOrbs | src/lib/avatarGenerator.ts:87-104 | the orb loop yields the orb group |
| LayerGeneration.PushOrb | src/lib/avatarGenerator.ts:89-103 | one orb, from its five draws |
| LayerGeneration.PushRings | src/lib/avatarGenerator.ts:107-122 | the ring loop yields the ring group |
| LayerGeneration.PushRing | src/lib/avatarGenerator.ts:109-121 | one ring, from its two draws |
| LayerGeneration.PushCrystals | src/lib/avatarGenerator.ts:125-141 | the crystal loop yields the crystal group |
| LayerGeneration.PushCrystal | src/lib/avatarGenerator.ts:127-140 | one crystal, from its five draws |
| LayerGeneration.PushArcs | src/lib/avatarGenerator.ts:144-159 | the arc loop yields the arc group |
| LayerGeneration.PushArc | src/lib/avatarGenerator.ts:146-158 | one arc, from its three draws |
| LayerGeneration.PushStars | src/lib/avatarGenerator.ts:162-179 | the star loop yields the star group |
| LayerGeneration.PushStar | src/lib/avatarGenerator.ts:164-178 | one star, from its six draws |
| LayerGeneration.NextNebula | src/lib/avatarGenerator.ts:69-83 | the nebula literal reads draws k+1 to k+6 in evaluation order |
| LayerGeneration.NextOrb | src/lib/avatarGenerator.ts:89-103 | the orb literal reads draws k+1 to k+5 |
| LayerGeneration.NextRing | src/lib/avatarGenerator.ts:109-121 | the ring literal reads draws k+1 and k+2 |
| LayerGeneration.NextCrystal | src/lib/avatarGenerator.ts:127-140 | the crystal literal reads draws k+1 to k+5 |
| LayerGeneration.NextArc | src/lib/avatarGenerator.ts:146-158 | the arc literal reads draws k+1 to k+3 |
| LayerGeneration.NextStar | src/lib/avatarGenerator.ts:164-178 | the star literal reads draws k+1 to k+6 |
| Breakdown.Describe | src/lib/avatarGenerator.ts:382-388 | an entry keeps its character and the pattern `cosmic`; its shape is the (index mod 5)-th of `glow-orb, crystal, ring, arc, star`, and its rotation is 45·(index mod 8), below 360 |
| Breakdown.ProcessEmail | src/lib/avatarGenerator.ts:380-389 | one entry per normalised character, in order: the character, the first colour of its palette, shape (i mod 5), pattern `cosmic` and rotation 45·(i mod 8) |
| Breakdown.ShapesCycle | src/lib/avatarGenerator.ts:385 | the shapes start with `glow-orb` and repeat every five entries |
| Breakdown.RotationSteps | src/lib/avatarGenerator.ts:387 | entry i is turned by 45·(i mod 8) degrees, so rotations repeat every eight entries |
| Breakdown.RotationOfIndex | src/lib/avatarGenerator.ts:387 | (45·i) mod 360 is 45·(i mod 8) |
| Breakdown.BreakdownCaseInsensitive | src/lib/avatarGenerator.ts:381 | letter case makes no difference to the breakdown |
| Breakdown.NeverDefaultColour | src/lib/avatarGenerator.ts:384 | no entry shows the default violet, because every normalised character is in the table |
| Breakdown.AgreesWithCrystals | src/lib/avatarGenerator.ts:125-127 | the first min(\|chars\|, 6) entries carry the core colour of the crystal drawn for the same character |
| AvatarSvg.BgHue | src/lib/avatarGenerator.ts:461 | `hash % 40 + 250` lies in [250, 289] and steps with the hash modulo 40 |
| AvatarSvg.BgHue2 | src/lib/avatarGenerator.ts:462 | `((hash >> 8) % 30) + 280` lies in [280, 309] for hashes below 2^31, and in [251, 309] for all |
| AvatarSvg.BgHue2BelowTop | src/lib/avatarGenerator.ts:462 | below 2^31 it is (hash / 256) mod 30 + 280 |
| AvatarSvg.BgHue2AtTop | src/lib/avatarGenerator.ts:462 | at hash 2^31 the shift sees -2^31, and the truncating `%` gives 272 |
| AvatarSvg.MidHue | src/lib/avatarGenerator.ts:497 | the middle stop's hue lies in [250.5, 299] |
| AvatarSvg.GlowDefsDistinct | src/lib/avatarGenerator.ts:486 | the ids `glow0`, `glow1`, … of the gradients differ |
| AvatarSvg.GlowRefsDistinct | src/lib/avatarGenerator.ts:477 | the references `url(#glow{i})` differ |
| AvatarSvg.CirclePairMentions | src/lib/avatarGenerator.ts:476-478 | the outer circle of shape i references gradient i, the inner circle is filled with the core colour, and both radius-and-paint tails occur in the pair |
| AvatarSvg.GlowGradientDefines | src/lib/avatarGenerator.ts:485-490 | gradient i defines the id `glow{i}` |
| AvatarSvg.ShapeCount | src/lib/avatarGenerator.ts:465 | `Math.min(chars.length, 6)` |
| AvatarSvg.InputOf | src/lib/avatarGenerator.ts:457-458 | the document is built from the hash and the normalised characters |
| AvatarSvg.ShapePieces | src/lib/avatarGenerator.ts:468-479 | one circle pair per shape |
| AvatarSvg.ShapePieceMentions | src/lib/avatarGenerator.ts:476-478 | circle pair i references `glow{i}` and fills with character i's core colour |
| AvatarSvg.GradientPieces | src/lib/avatarGenerator.ts:483-491 | one gradient per shape |
| AvatarSvg.GradientPieceDefines | src/lib/avatarGenerator.ts:485-490 | gradient piece i defines `glow{i}` |
| AvatarSvg.DocumentMentions | src/lib/avatarGenerator.ts:493-514 | for every shape i the document defines `glow{i}`, references it, and fills with character i's core colour |
| AvatarSvg.DocumentCircles | src/lib/avatarGenerator.ts:474-478 | for every shape i the document holds an outer circle of radius 2·0.08·size painted with `glow{i}` at opacity 0.4, and an inner circle of radius 0.08·size filled with character i's core colour |
| AvatarSvg.DocumentCorners | src/lib/avatarGenerator.ts:502 | the clip path rounds its corners with `rx` and `ry` both 0.15·size |
| AvatarSvg.SvgMatchesBreakdown | src/lib/avatarGenerator.ts:478 | each of the first six breakdown colours appears in the SVG as a fill |
| AvatarSvg.GenerateAvatarSvg | src/lib/avatarGenerator.ts:456-515 | the method returns the document of the address |
| AvatarSvg.Render | src/lib/avatarGenerator.ts:464-514 | the two loops and the template give the document |
| AvatarSvg.AppendShapes | src/lib/avatarGenerator.ts:464-479 | the `shapes` string is the concatenation of the circle pairs |
| AvatarSvg.AppendGradients | src/lib/avatarGenerator.ts:482-491 | the `gradientDefs` string is the concatenation of the gradients |
| AvatarSvg.AppendShape | src/lib/avatarGenerator.ts:476-478 | one `+=` appends the next circle pair |
| AvatarSvg.AppendGradient | src/lib/avatarGenerator.ts:485-490 | one `+=` appends the next gradient |
| CharacterShapes.TypeFeaturesInverse | src/lib/characterShapes.ts:6 | each shape type is recovered from the length, first and last character of its `type` text |
| CharacterShapes.TypeNameInjective | src/lib/characterShapes.ts:15-59 | different shape types have different `type` texts |
| CharacterShapes.ShapeEntry | src/lib/characterShapes.ts:13-60 | the table has an entry exactly for the 41 allowed characters, and each entry's `char` is its key |
| CharacterShapes.ShapeOwner | src/lib/characterShapes.ts:15-59 | reading the table backwards always gives an allowed character |
| CharacterShapes.OwnerOfEntry | src/lib/characterShapes.ts:13-60 | each character's type and variant belong to that character alone |
| CharacterShapes.ShapeKeyInjective | src/lib/characterShapes.ts:83 | the key `${type}-${variant}` determines the type and the variant |
| CharacterShapes.SplitAtLastDash | src/lib/characterShapes.ts:83 | `x-m` with digits m splits uniquely at its last dash |
| CharacterShapes.ShapeMapGet | src/lib/characterShapes.ts:68 | `CHARACTER_SHAPE_MAP[k]` exists exactly for one-character keys in the table, with `char == k` |
| CharacterShapes.GetShapeForCharacter | src/lib/characterShapes.ts:66-75 | the result's `char` is the upper-cased argument; it is the table entry when there is one, and otherwise a dot of variant 1 labelled `Unknown` with the description `Fallback shape` |
| CharacterShapes.GetShapeCaseInsensitive | src/lib/characterShapes.ts:67-68 | upper-casing first changes nothing |
| CharacterShapes.LowerAndUpperA | src/lib/characterShapes.ts:66-68 | `a` and `A` both give the triangle of variant 1 |
| CharacterShapes.FallbackSharesDotKey | src/lib/characterShapes.ts:66-75 | the fallback is recorded under the same key `dot-1` as the entry for `.` |
| CharacterShapes.AllCharactersOrder | src/lib/characterShapes.ts:63 | `ALL_CHARACTERS` lists the digits 0-9, then A-Z, then `@ . _ - +`: 41 keys |
| CharacterShapes.AllCharactersAreTheKeys | src/lib/characterShapes.ts:63 | `ALL_CHARACTERS` names exactly the keys of the table |
| CharacterShapes.AllCharactersAllowed | src/lib/characterShapes.ts:63 | its members are exactly the allowed one-character strings |
| CharacterShapes.AllCharactersDistinct | src/lib/characterShapes.ts:63 | no key is listed twice |
| PropertyOrder.DigitIsIndex | src/lib/characterShapes.ts:63 | a single digit is an array index whose value is the digit |
| PropertyOrder.NonDigitIsNoIndex | src/lib/characterShapes.ts:63 | a single non-digit is no array index |
| PropertyOrder.Insert | src/lib/characterShapes.ts:63 | insertion adds the key once and keeps all others |
| PropertyOrder.InsertAscending | src/lib/characterShapes.ts:63 | insertion keeps ascending keys ascending |
| PropertyOrder.Sort | src/lib/characterShapes.ts:63 | sorting permutes the keys into ascending order |
| PropertyOrder.SortAscending | src/lib/characterShapes.ts:63 | sorting ascending keys leaves them alone |
| PropertyOrder.OwnKeys | src/lib/characterShapes.ts:63 | `Object.keys` lists each created key exactly as often as it was created |
| PropertyOrder.OwnKeysOrder | src/lib/characterShapes.ts:63 | array indices come first and ascending, then the other keys in creation order |
| PropertyOrder.IndicesMoveFirst | src/lib/characterShapes.ts:63 | keys created as a, ascending indices b, c are visited as b, a, c |
| UniqueShapes.ShapeEntries | src/lib/characterShapes.ts:82 | `Object.entries` pairs each key of `ALL_CHARACTERS`, in order, with its definition |
| UniqueShapes.KeyedEntries | src/lib/characterShapes.ts:83 | each entry's key is `${type}-${variant}` |
| UniqueShapes.FirstWithKey | src/lib/characterShapes.ts:84-88 | the first position with a key, or the length when there is none |
| UniqueShapes.SeenFirst | src/lib/characterShapes.ts:84-88 | a key is in `seen` exactly when some entry has it, and it maps to the first such character in visiting order |
| UniqueShapes.DuplicatesAreReported | src/lib/characterShapes.ts:84-86 | the loop pushes exactly one message `<later> and <first> both use <key>` for each entry whose key an earlier entry has, in order |
| UniqueShapes.SeenKeys | src/lib/characterShapes.ts:87 | the keys of `seen` are the keys of the entries |
| UniqueShapes.DuplicateCount | src/lib/characterShapes.ts:79-89 | messages plus distinct keys equal entries |
| UniqueShapes.NoDuplicatesIffDistinct | src/lib/characterShapes.ts:84-94 | no message is pushed exactly when no two entries share a key |
| UniqueShapes.CollectDuplicates | src/lib/characterShapes.ts:79-89 | the loop with its `seen` map yields the specified messages |
| UniqueShapes.WalkStep | src/lib/characterShapes.ts:84-88 | each entry either records its key in `seen` or pushes one message |
| UniqueShapes.VerifyUniqueShapes | src/lib/characterShapes.ts:78-95 | `isUnique` holds exactly when `duplicates` is empty; for the shipped table it holds and nothing is reported |
| UniqueShapes.ShippedKeysDistinct | src/lib/characterShapes.ts:13-60 | no two characters of the table share a `type-variant` key |

## Left out

- `drawNebula`, `drawGlowOrb`, `drawRing`, `drawCrystal`, `drawArc`, `drawStar`,
  `drawLayer`, `generateAvatarCanvas` and `generateAvatarDataURL`: canvas drawing and
  image encoding, which are I/O.
- `Math.cos`, `Math.sin` (the `trig` parameter) and the text JavaScript writes for a
  fractional number (the `num` parameter) are passed in as functions. The model states
  nothing about their values.
- `Prng.Unit`: the state update follows JavaScript exactly, double rounding included, but
  each draw is the exact fraction `seed / 0x7fffffff`. JavaScript returns the nearest
  double to that fraction. Every value built from a draw is an exact real too: the
  coordinates, sizes, opacities and rotations.
- The floors the layout takes agree with JavaScript's, on the following argument. It is
  not proved in the model.
  - 2^31 - 1 is prime. So for a state 0 < s < 2^31 - 1 and a whole number
    0 < n < 2^31 - 1, s·n / (2^31 - 1) is never a whole number.
  - It is at least 1/(2^31 - 1), about 4.7e-10, from the nearest one.
  - JavaScript's `rand() * n` differs from the exact product by at most about
    n·1.7e-16: half a unit in the last place for the draw, plus one rounding of the
    product.
  - So `Math.floor` gives the same whole number whenever n is below about 2.8 million.
  - For the spreads 2 and 3 of the counts this holds with a wide margin. For
    `Math.floor(rand() * chars.length)` it holds for every address whose normalised
    length is below about 2^21 characters. Behaviour for longer addresses is not
    modelled.
- A Dafny `string` holds Unicode scalar values. So an address holding an unpaired UTF-16
  surrogate cannot be written as one, although `hashString` (through `charCodeAt`) and
  the normalisation accept it. Such addresses are outside the model's string type.
- `AvatarSvg.GenerateAvatarSvg`: the default `size = 256` of `generateAvatarSVG` is not
  modelled; callers pass the size.
- `JsSemantics.UpperChar`: only ASCII letters are upper-cased. Non-ASCII mappings such as
  `ı` to `I` or `ß` to `SS` are not modelled. None of them can produce a key of either
  table except through these non-ASCII letters.
- `Layout.SceneOf`: the letter case of the address does change the layout, because the
  hash is taken over the raw address. Only the characters, palettes and the breakdown are
  case-insensitive, and only those are proved so.
- The `label` field of a shape definition is called `labelText`, because `label` is a
  Dafny keyword. The `type` field is the enumeration `ShapeType` with its text
  `TypeName`.
- Properties that objects inherit from `Object.prototype` are never hit: the lookup keys
  are upper-cased text, and no inherited property name is upper case.
- All React pages and components: UI state, timers and JSX drawing.
- The crystal comment in `generateLayers` says "4-6". The code draws min(|chars|, 6)
  crystals, and the model follows the code (`LayoutProperties.GroupCountRanges` proves at
  most 6).
- `AvatarSvg.BgHue2`: at the single hash value 2^31, `hash >> 8` reads a negative int32,
  so the hue is 272, outside the 280-309 of the formula. The model keeps this, as the code
  does (`AvatarSvg.BgHue2AtTop`).
