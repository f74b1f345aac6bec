/** Canonical form of an exchange UID typed into a chat. */
module Uid {

  /** Code points of the digit zero in the scripts of Unicode 15.0 other than
      ASCII: the decimal digits are each of these and the nine that follow. */
  const ZEROS: seq<int> := [
    0x660, 0x6f0, 0x7c0, 0x966, 0x9e6, 0xa66, 0xae6, 0xb66, 0xbe6, 0xc66, 0xce6, 0xd66, 0xde6,
    0xe50, 0xed0, 0xf20, 0x1040, 0x1090, 0x17e0, 0x1810, 0x1946, 0x19d0, 0x1a80, 0x1a90, 0x1b50,
    0x1bb0, 0x1c40, 0x1c50, 0xa620, 0xa8d0, 0xa900, 0xa9d0, 0xa9f0, 0xaa50, 0xabf0, 0xff10, 0x104a0,
    0x10d30, 0x11066, 0x110f0, 0x11136, 0x111d0, 0x112f0, 0x11450, 0x114d0, 0x11650, 0x116c0,
    0x11730, 0x118e0, 0x11950, 0x11c50, 0x11d50, 0x11da0, 0x11f50, 0x16a60, 0x16ac0, 0x16b50,
    0x1d7ce, 0x1d7d8, 0x1d7e2, 0x1d7ec, 0x1d7f6, 0x1e140, 0x1e2f0, 0x1e4f0, 0x1e950, 0x1fbf0]

  predicate IsDecimal(c: char) {
    '0' <= c <= '9' || ('\U{660}' <= c && exists i | 0 <= i < |ZEROS| :: ZEROS[i] <= c as int < ZEROS[i] + 10)
  }

  predicate IsWhitespace(c: char) {
    var x := c as int;
    9 <= x <= 13 || 0x1c <= x <= 0x20 || x == 0x85 || x == 0xa0 || x == 0x1680 || 0x2000 <= x <= 0x200a
    || x == 0x2028 || x == 0x2029 || x == 0x202f || x == 0x205f || x == 0x3000
  }

  /** What the substitution removes: whitespace, comma, the Arabic thousands
      separator, the Arabic comma, underscore and hyphen. */
  predicate IsSeparator(c: char) {
    IsWhitespace(c) || c in {',', '\U{66C}', '\U{60C}', '_', '-'}
  }

  /** Persian and Arabic-Indic digits become ASCII digits; the rest stays. */
  function Fold(c: char): char {
    var x := c as int;
    if 0x6f0 <= x <= 0x6f9 then (x - 0x6f0 + 0x30) as char
    else if 0x660 <= x <= 0x669 then (x - 0x660 + 0x30) as char
    else c
  }

  function Translate(s: string): string {
    seq(|s|, i requires 0 <= i < |s| => Fold(s[i]))
  }

  function RemoveSeparators(s: string): string {
    if s == [] then [] else (if IsSeparator(s[0]) then [] else [s[0]]) + RemoveSeparators(s[1..])
  }

  function StripLeft(s: string): string {
    if s != [] && IsWhitespace(s[0]) then StripLeft(s[1..]) else s
  }

  function StripRight(s: string): string {
    if s != [] && IsWhitespace(s[|s| - 1]) then StripRight(s[..|s| - 1]) else s
  }

  /** The empty string stands for the absent value too; both give "". */
  function Normalize(raw: string): string {
    if raw == "" then "" else StripRight(StripLeft(RemoveSeparators(Translate(raw))))
  }

  predicate NineDigits(s: string) {
    |s| == 9 && forall i | 0 <= i < 9 :: IsDecimal(s[i])
  }

  /** The pattern's `$` also matches just before one final newline. */
  predicate IsValid(candidate: string) {
    NineDigits(candidate) || (|candidate| == 10 && candidate[9] == '\n' && NineDigits(candidate[..9]))
  }

  /** One pass over the text, character by character: the reference form. */
  function Canonical(s: string): string {
    if s == [] then [] else (if IsSeparator(s[0]) then [] else [Fold(s[0])]) + Canonical(s[1..])
  }

  ghost predicate Clean(s: string) {
    forall i | 0 <= i < |s| :: !IsSeparator(s[i]) && Fold(s[i]) == s[i]
  }

  lemma FoldFacts(c: char)
    ensures Fold(Fold(c)) == Fold(c) && IsSeparator(Fold(c)) == IsSeparator(c)
  {
  }

  lemma {:induction false} RemoveAfterTranslate(s: string)
    ensures RemoveSeparators(Translate(s)) == Canonical(s)
  {
    if s != [] {
      assert Translate(s)[0] == Fold(s[0]) && Translate(s)[1..] == Translate(s[1..]);
      FoldFacts(s[0]);
      RemoveAfterTranslate(s[1..]);
    }
  }

  lemma {:induction false} CanonicalIsClean(s: string)
    ensures Clean(Canonical(s))
  {
    if s != [] {
      FoldFacts(s[0]);
      CanonicalIsClean(s[1..]);
    }
  }

  lemma {:induction false} CanonicalOfClean(s: string)
    requires Clean(s)
    ensures Canonical(s) == s
  {
    if s != [] {
      assert Clean(s[1..]);
      CanonicalOfClean(s[1..]);
    }
  }

  /** The final strip never has anything left to remove. */
  lemma NormalizeIsCanonical(raw: string)
    ensures Normalize(raw) == Canonical(raw)
  {
    RemoveAfterTranslate(raw);
    CanonicalIsClean(raw);
  }

  lemma NormalizeIdempotent(raw: string)
    ensures Normalize(Normalize(raw)) == Normalize(raw)
  {
    NormalizeIsCanonical(raw);
    CanonicalIsClean(raw);
    NormalizeIsCanonical(Normalize(raw));
    CanonicalOfClean(Normalize(raw));
  }

  lemma {:induction false} CanonicalConcat(a: string, b: string)
    ensures Canonical(a + b) == Canonical(a) + Canonical(b)
  {
    if a == [] {
      assert a + b == b;
    } else {
      assert (a + b)[0] == a[0] && (a + b)[1..] == a[1..] + b;
      CanonicalConcat(a[1..], b);
    }
  }

  // What the user typed, by code points.

  /** `c` is the digit `v`, as ASCII, Arabic-Indic or Persian keyboards write it. */
  predicate Writes(c: char, v: nat) {
    v < 10 && (c as int == 0x30 + v || c as int == 0x660 + v || c as int == 0x6f0 + v)
  }

  /** Everything the substitution removes. */
  const REMOVED: set<int> := {
    0x09, 0x0a, 0x0b, 0x0c, 0x0d, 0x1c, 0x1d, 0x1e, 0x1f, 0x20, 0x2c, 0x2d, 0x5f, 0x85, 0xa0, 0x60c, 0x66c, 0x1680,
    0x2000, 0x2001, 0x2002, 0x2003, 0x2004, 0x2005, 0x2006, 0x2007, 0x2008, 0x2009, 0x200a, 0x2028, 0x2029, 0x202f,
    0x205f, 0x3000}

  /** What becomes of one character: a removed one leaves nothing, a digit of any of
      the three scripts the ASCII digit of its value, any other itself. */
  lemma OneCharacter(c: char)
    ensures Normalize([c]) == [] <==> c as int in REMOVED
    ensures forall v: nat | Writes(c, v) :: Normalize([c]) == [(0x30 + v) as char]
    ensures c as int !in REMOVED && (forall v: nat :: !Writes(c, v)) ==> Normalize([c]) == [c]
  {
    NormalizeIsCanonical([c]);
    SeparatorsAreRemoved(c);
    assert [c][1..] == [];
    FoldReadsDigits(c);
  }

  lemma SeparatorsAreRemoved(c: char)
    ensures IsSeparator(c) <==> c as int in REMOVED
  {
  }

  lemma FoldReadsDigits(c: char)
    ensures forall v: nat | Writes(c, v) :: Fold(c) == (0x30 + v) as char
    ensures (forall v: nat :: !Writes(c, v)) ==> Fold(c) == c
    ensures !(exists v: nat :: Writes(c, v) && c as int in REMOVED)
  {
    if Fold(c) != c {
      var v: nat := Fold(c) as int - 0x30;
      assert Writes(c, v);
    }
  }

  /** The text spells these digits: each in any of the three scripts, with removable
      characters anywhere around them, and nothing else. */
  predicate Spells(text: string, digits: seq<nat>) {
    if text == [] then digits == []
    else if text[0] as int in REMOVED then Spells(text[1..], digits)
    else digits != [] && Writes(text[0], digits[0]) && Spells(text[1..], digits[1..])
  }

  function InAscii(digits: seq<nat>): string
    requires forall i | 0 <= i < |digits| :: digits[i] < 10
  {
    seq(|digits|, i requires 0 <= i < |digits| => (0x30 + digits[i]) as char)
  }

  lemma {:induction false} CanonicalReadsDigits(text: string, digits: seq<nat>)
    requires forall i | 0 <= i < |digits| :: digits[i] < 10
    ensures Canonical(text) == InAscii(digits) <==> Spells(text, digits)
  {
    hide Writes, Fold, IsSeparator;
    if text != [] {
      SeparatorsAreRemoved(text[0]);
      if text[0] as int in REMOVED {
        CanonicalReadsDigits(text[1..], digits);
      } else if digits != [] {
        CanonicalReadsDigits(text[1..], digits[1..]);
        FirstDigit(text[0], digits[0]);
        var d := (0x30 + digits[0]) as char;
        assert InAscii(digits) == [d] + InAscii(digits[1..]);
        SameHeads(Fold(text[0]), d, Canonical(text[1..]), InAscii(digits[1..]));
      }
    }
  }

  lemma SameHeads(c: char, d: char, s: string, t: string)
    ensures [c] + s == [d] + t <==> c == d && s == t
  {
    assert ([c] + s)[0] == c && ([c] + s)[1..] == s && ([d] + t)[1..] == t;
  }

  /** Normalising reads exactly the digits typed: it gives an ASCII digit string if
      and only if the text spells those digits. */
  lemma NormalizeReadsDigits(text: string, digits: seq<nat>)
    requires forall i | 0 <= i < |digits| :: digits[i] < 10
    ensures Normalize(text) == InAscii(digits) <==> Spells(text, digits)
  {
    NormalizeIsCanonical(text);
    CanonicalReadsDigits(text, digits);
  }

  lemma FirstDigit(c: char, v: nat)
    requires v < 10
    ensures Fold(c) == (0x30 + v) as char <==> Writes(c, v)
  {
  }

  /** A text that spells digits is a valid UID exactly if they are nine. */
  lemma NineDigitsTyped(text: string, digits: seq<nat>)
    requires (forall i | 0 <= i < |digits| :: digits[i] < 10) && Spells(text, digits)
    ensures IsValid(Normalize(text)) <==> |digits| == 9
  {
    NormalizeReadsDigits(text, digits);
    ValidNormalized(text);
  }

  /** One spelling change at one place: a separator typed in, or one digit
      replaced by the same digit of another of the three scripts. */
  ghost predicate Edit(s: string, t: string) {
    exists a: string, b: string, c: char, d: char ::
      EditAt(s, t, a, b, c, d)
  }

  ghost predicate EditAt(s: string, t: string, a: string, b: string, c: char, d: char) {
    (s == a + b && t == a + [c] + b && c as int in REMOVED)
    || (s == a + [c] + b && t == a + [d] + b && SameDigit(c, d))
  }

  ghost predicate SameDigit(c: char, d: char) {
    c == d || exists v: nat :: Writes(c, v) && Writes(d, v)
  }

  lemma SameDigitFolds(c: char, d: char)
    ensures SameDigit(c, d) ==> Fold(c) == Fold(d) && IsSeparator(c) == IsSeparator(d)
    ensures SameDigit(c, Fold(c))
  {
    FoldReadsDigits(c);
    FoldReadsDigits(d);
    FoldFacts(c);
    FoldFacts(d);
    if Fold(c) != c {
      var v: nat :| Writes(c, v);
      assert Writes(Fold(c), v);
    }
  }

  /** Spellings linked by changes made in either direction. */
  ghost predicate Respelling(path: seq<string>, s: string, t: string) {
    path != [] && path[0] == s && path[|path| - 1] == t
    && forall i | 0 <= i < |path| - 1 :: Edit(path[i], path[i + 1]) || Edit(path[i + 1], path[i])
  }

  lemma CanonicalAround(a: string, c: char, b: string)
    ensures Canonical(a + [c] + b) == Canonical(a) + (if IsSeparator(c) then [] else [Fold(c)]) + Canonical(b)
  {
    var m := [c] + b;
    assert a + [c] + b == a + m && m[0] == c && m[1..] == b;
    CanonicalConcat(a, m);
  }

  lemma EditKeepsCanonical(s: string, t: string)
    requires Edit(s, t)
    ensures Canonical(s) == Canonical(t)
  {
    hide Canonical, Fold, IsSeparator, SameDigit;
    var a, b, c, d :| EditAt(s, t, a, b, c, d);
    CanonicalAround(a, c, b);
    SeparatorsAreRemoved(c);
    if s == a + b && t == a + [c] + b && c as int in REMOVED {
      CanonicalConcat(a, b);
    } else {
      CanonicalAround(a, d, b);
      SameDigitFolds(c, d);
    }
  }

  lemma {:induction false} RespellingKeepsCanonical(path: seq<string>, s: string, t: string)
    requires Respelling(path, s, t)
    ensures Canonical(s) == Canonical(t)
  {
    if |path| > 1 {
      if Edit(path[0], path[1]) { EditKeepsCanonical(path[0], path[1]); } else { EditKeepsCanonical(path[1], path[0]); }
      RespellingKeepsCanonical(path[1..], path[1], t);
    }
  }

  lemma OneMoreStep(path: seq<string>, r: string, s: string, t: string)
    requires Respelling(path, s, t) && (Edit(r, s) || Edit(s, r))
    ensures Respelling([r] + path, r, t)
  {
    hide Edit;
  }

  lemma TypedOut(a: string, c: char, b: string)
    requires c as int in REMOVED
    ensures Edit(a + b, a + [c] + b)
  {
    assert EditAt(a + b, a + [c] + b, a, b, c, c);
  }

  lemma Rewritten(a: string, c: char, d: char, b: string)
    requires SameDigit(c, d)
    ensures Edit(a + [c] + b, a + [d] + b)
  {
    assert EditAt(a + [c] + b, a + [d] + b, a, b, c, d);
  }

  /** Every text can be led to its canonical form one change at a time; `done`
      is the part already rewritten. */
  lemma {:induction false} PathToCanonical(done: string, s: string) returns (path: seq<string>)
    ensures Respelling(path, done + s, done + Canonical(s))
    decreases |s|
  {
    hide Edit, SameDigit, Fold, IsSeparator;
    if s == [] {
      path := [done];
      assert done + s == done && done + Canonical(s) == done;
    } else if IsSeparator(s[0]) {
      var tail := PathToCanonical(done, s[1..]);
      SeparatorsAreRemoved(s[0]);
      TypedOut(done, s[0], s[1..]);
      assert done + s == done + [s[0]] + s[1..];
      hide Respelling;
      OneMoreStep(tail, done + s, done + s[1..], done + Canonical(s[1..]));
      path := [done + s] + tail;
    } else {
      var c := Fold(s[0]);
      SameDigitFolds(s[0], c);
      var tail := PathToCanonical(done + [c], s[1..]);
      Rewritten(done, s[0], c, s[1..]);
      assert done + s == done + [s[0]] + s[1..];
      assert done + [c] + Canonical(s[1..]) == done + Canonical(s);
      hide Respelling;
      OneMoreStep(tail, done + s, done + [c] + s[1..], done + Canonical(s));
      path := [done + s] + tail;
    }
  }

  lemma Backwards(path: seq<string>, s: string, t: string) returns (back: seq<string>)
    requires Respelling(path, s, t)
    ensures Respelling(back, t, s)
  {
    var n := |path|;
    back := seq(n, i requires 0 <= i < n => path[n - 1 - i]);
    forall i | 0 <= i < n - 1
      ensures Edit(back[i], back[i + 1]) || Edit(back[i + 1], back[i])
    {
      var j := n - 2 - i;
      assert Edit(path[j], path[j + 1]) || Edit(path[j + 1], path[j]);
    }
  }

  /** Two texts normalise alike exactly when typing separators in or out and
      swapping digit scripts leads from one to the other. */
  lemma SameUidIffRespelling(s: string, t: string)
    ensures Normalize(s) == Normalize(t) <==> exists path :: Respelling(path, s, t)
  {
    NormalizeIsCanonical(s);
    NormalizeIsCanonical(t);
    forall path | Respelling(path, s, t)
      ensures Normalize(s) == Normalize(t)
    {
      RespellingKeepsCanonical(path, s, t);
    }
    if Normalize(s) == Normalize(t) {
      var there := PathToCanonical([], s);
      var from := PathToCanonical([], t);
      assert [] + s == s && [] + t == t && [] + Canonical(s) == Canonical(s) && [] + Canonical(t) == Canonical(t);
      var back := Backwards(from, t, Canonical(t));
      assert Respelling(there + back[1..], s, t);
    }
  }

  /** After normalisation the newline loophole of the pattern is closed. */
  lemma ValidNormalized(raw: string)
    ensures IsValid(Normalize(raw)) <==> NineDigits(Normalize(raw))
  {
    NormalizeIsCanonical(raw);
    CanonicalIsClean(raw);
  }

  /** On text that was not normalised the pattern accepts one final newline. */
  lemma NewlineLoophole()
    ensures IsValid("123456789\n") && !NineDigits("123456789\n")
  {
    var s := "123456789\n"[..9];
    assert s == "123456789";
  }

  /** The pattern counts decimal digits of every script, the folding knows three: nine
      full-width digits are a valid UID that stays as typed. */
  lemma FullWidthStays(text: string)
    requires |text| == 9 && forall i | 0 <= i < 9 :: 0xff10 <= text[i] as int <= 0xff19
    ensures Normalize(text) == text && IsValid(text)
  {
    assert ZEROS[35] == 0xff10;
    assert forall i | 0 <= i < 9 :: IsDecimal(text[i]);
    assert Clean(text);
    NormalizeIsCanonical(text);
    CanonicalOfClean(text);
  }
}
