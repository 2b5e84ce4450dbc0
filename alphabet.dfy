/** The characters an avatar is drawn from: `email.toUpperCase()` with everything outside
    A-Z, 0-9 and `@ . _ - +` removed (`replace(/[^A-Z0-9@._\-+]/g, '')`), then split into
    single characters. */
module Alphabet {
  import opened JsSemantics

  /** The five punctuation characters an address may keep. */
  const Specials: string := "@._-+"

  predicate IsUpperLetter(c: char) {
    'A' <= c <= 'Z'
  }

  predicate IsDecimalDigit(c: char) {
    '0' <= c <= '9'
  }

  /** The character class `[A-Z0-9@._\-+]`. */
  predicate Allowed(c: char) {
    IsUpperLetter(c) || IsDecimalDigit(c) || c == '@' || c == '.' || c == '_' || c == '-' || c == '+'
  }

  /** `s.replace(/[^A-Z0-9@._\-+]/g, '')`: the allowed characters of s, in order. */
  function KeepAllowed(s: string): (r: string)
    ensures |r| <= |s|
    ensures forall i :: 0 <= i < |r| ==> Allowed(r[i])
    ensures (forall i :: 0 <= i < |s| ==> Allowed(s[i])) ==> r == s
  {
    if s == [] then []
    else if Allowed(s[|s| - 1]) then KeepAllowed(s[..|s| - 1]) + [s[|s| - 1]]
    else KeepAllowed(s[..|s| - 1])
  }

  /** The `chars` array of `generateLayers` and `processEmail`. */
  function Normalize(email: string): (chars: string)
    ensures |chars| <= |email|
    ensures forall i :: 0 <= i < |chars| ==> Allowed(chars[i])
  {
    KeepAllowed(UpperAscii(email))
  }

  lemma {:induction false} KeepAllowedAppend(a: string, b: string)
    ensures KeepAllowed(a + b) == KeepAllowed(a) + KeepAllowed(b)
    decreases |b|
  {
    if b == [] {
      assert a + b == a;
    } else {
      var b' := b[..|b| - 1];
      assert (a + b)[..|a + b| - 1] == a + b';
      KeepAllowedAppend(a, b');
    }
  }

  /** A character survives exactly when its upper-case form is in the class; the
      survivors are those upper-case forms. */
  lemma {:induction false} KeepAllowedMembers(s: string, c: char)
    ensures c in KeepAllowed(s) <==> c in s && Allowed(c)
    decreases |s|
  {
    if s != [] {
      var init := s[..|s| - 1];
      KeepAllowedMembers(init, c);
      assert s == init + [s[|s| - 1]];
    }
  }

  /** Normalising an address is the same as normalising each part of it. */
  lemma NormalizeAppend(a: string, b: string)
    ensures Normalize(a + b) == Normalize(a) + Normalize(b)
  {
    UpperAsciiAppend(a, b);
    KeepAllowedAppend(UpperAscii(a), UpperAscii(b));
  }

  /** A normalised address is its own normal form. */
  lemma NormalizeIdempotent(email: string)
    ensures Normalize(Normalize(email)) == Normalize(email)
  {
    var chars := Normalize(email);
    assert UpperAscii(chars) == chars;
  }

  /** Letter case does not change the characters: `a@B.co` and `A@b.CO` draw the same. */
  lemma NormalizeCaseInsensitive(email: string)
    ensures Normalize(UpperAscii(email)) == Normalize(email)
  {
    UpperAsciiIdempotent(email);
  }

  /** c is one of the avatar's characters exactly when some character of the address
      upper-cases to c and c is in the class. */
  lemma NormalizeMembers(email: string, c: char)
    ensures c in Normalize(email) <==> Allowed(c) && exists i :: 0 <= i < |email| && UpperChar(email[i]) == c
  {
    KeepAllowedMembers(UpperAscii(email), c);
    if c in UpperAscii(email) {
      var i :| 0 <= i < |email| && UpperAscii(email)[i] == c;
      assert UpperChar(email[i]) == c;
    }
    if exists i :: 0 <= i < |email| && UpperChar(email[i]) == c {
      var i :| 0 <= i < |email| && UpperChar(email[i]) == c;
      assert UpperAscii(email)[i] == c;
    }
  }
}
