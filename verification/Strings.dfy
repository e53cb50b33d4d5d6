/** Go's strings.TrimSpace and strings.ToLower on ASCII text. */
module Strings {

  predicate IsSpace(c: char) {
    c == ' ' || '\t' <= c <= '\r'
  }

  function TrimSpace(s: string): string
    decreases |s|
  {
    if s == "" then ""
    else if IsSpace(s[0]) then TrimSpace(s[1..])
    else if IsSpace(s[|s| - 1]) then TrimSpace(s[..|s| - 1])
    else s
  }

  function LowerChar(c: char): char {
    if 'A' <= c <= 'Z' then (c as int + 32) as char else c
  }

  function ToLower(s: string): (r: string)
    ensures |r| == |s|
  {
    seq(|s|, i requires 0 <= i < |s| => LowerChar(s[i]))
  }

  /** The form in which an email is stored and looked up. */
  function Normalize(s: string): string {
    ToLower(TrimSpace(s))
  }

  // ---- spellings, in terms of the characters themselves ----

  /** Only space, tab, line feed, vertical tab, form feed and carriage return. */
  predicate Blank(s: string) {
    forall i :: 0 <= i < |s| ==> s[i] in {' ', '\t', '\n', '\U{0B}', '\U{0C}', '\r'}
  }

  /** None of those six at either end. */
  predicate Trim(s: string) {
    s != "" ==> !Blank([s[0]]) && !Blank([s[|s| - 1]])
  }

  /** Equal, or an ASCII capital and the letter 32 above it. */
  predicate SameLetter(c: char, d: char) {
    || c == d
    || ('A' <= c <= 'Z' && d as int == c as int + 32)
    || ('A' <= d <= 'Z' && c as int == d as int + 32)
  }

  /** Equal up to the case of ASCII letters. */
  predicate SameLetters(s: string, t: string) {
    |s| == |t| && forall i :: 0 <= i < |s| ==> SameLetter(s[i], t[i])
  }

  predicate NoCapitals(s: string) {
    forall i :: 0 <= i < |s| ==> !('A' <= s[i] <= 'Z')
  }

  predicate SplitsAs(spelling: string, left: string, core: string, right: string) {
    spelling == left + core + right && Blank(left) && Blank(right)
  }

  /** `spelling` is `email` with other cases of its letters and white space around it. */
  ghost predicate Spells(spelling: string, email: string) {
    exists left, core, right :: SplitsAs(spelling, left, core, right) && SameLetters(core, email)
  }

  lemma SpacesAre(c: char)
    ensures IsSpace(c) <==> Blank([c])
  {
    assert [c][0] == c;
  }

  lemma LettersAre(c: char, d: char)
    ensures LowerChar(c) == LowerChar(d) <==> SameLetter(c, d)
    ensures IsSpace(LowerChar(c)) <==> IsSpace(c)
    ensures LowerChar(LowerChar(c)) == LowerChar(c) && !('A' <= LowerChar(c) <= 'Z')
    ensures !('A' <= c <= 'Z') ==> LowerChar(c) == c
  {
  }

  // ---- TrimSpace ----

  lemma {:induction false} TrimSpaceTrims(s: string)
    ensures Trim(TrimSpace(s))
    decreases |s|
  {
    forall c ensures IsSpace(c) <==> Blank([c]) { SpacesAre(c); }
    if s == "" {
    } else if IsSpace(s[0]) {
      TrimSpaceTrims(s[1..]);
    } else if IsSpace(s[|s| - 1]) {
      TrimSpaceTrims(s[..|s| - 1]);
    }
  }

  /** TrimSpace finds the core of any padded string. */
  lemma {:induction false} TrimSpacePadded(left: string, core: string, right: string)
    requires Blank(left) && Blank(right) && Trim(core)
    ensures TrimSpace(left + core + right) == core
    decreases |left| + |right|
  {
    var s := left + core + right;
    if s != "" {
      SpacesAre(s[0]);
      SpacesAre(s[|s| - 1]);
    }
    if left != "" {
      assert s[1..] == left[1..] + core + right;
      TrimSpacePadded(left[1..], core, right);
    } else if core == "" {
      if right != "" {
        assert s[1..] == left + core + right[1..];
        TrimSpacePadded(left, core, right[1..]);
      }
    } else if right != "" {
      assert s[..|s| - 1] == left + core + right[..|right| - 1];
      TrimSpacePadded(left, core, right[..|right| - 1]);
    } else {
      assert s == core;
    }
  }

  /** Every string is its trimmed core with white space around it. */
  lemma {:induction false} TrimSpaceSplits(s: string) returns (left: string, right: string)
    ensures SplitsAs(s, left, TrimSpace(s), right) && Trim(TrimSpace(s))
    decreases |s|
  {
    TrimSpaceTrims(s);
    if s == "" {
      left, right := "", "";
    } else if IsSpace(s[0]) {
      SpacesAre(s[0]);
      left, right := TrimSpaceSplits(s[1..]);
      assert s == [s[0]] + s[1..];
      assert s == ([s[0]] + left) + TrimSpace(s) + right;
      left := [s[0]] + left;
    } else if IsSpace(s[|s| - 1]) {
      SpacesAre(s[|s| - 1]);
      left, right := TrimSpaceSplits(s[..|s| - 1]);
      assert s == s[..|s| - 1] + [s[|s| - 1]];
      assert s == left + TrimSpace(s) + (right + [s[|s| - 1]]);
      right := right + [s[|s| - 1]];
    } else {
      left, right := "", "";
    }
  }

  lemma BlankIff(s: string)
    ensures TrimSpace(s) == "" <==> Blank(s)
  {
    var left, right := TrimSpaceSplits(s);
    if Blank(s) {
      TrimSpacePadded(s, "", "");
      assert s + "" + "" == s;
    }
    if TrimSpace(s) == "" {
      assert s == left + right;
    }
  }

  lemma SameLettersTrim(s: string, t: string)
    requires SameLetters(s, t) && Trim(s)
    ensures Trim(t)
  {
    if t != "" {
      var n := |t| - 1;
      LettersAre(s[0], t[0]);
      LettersAre(t[0], s[0]);
      LettersAre(s[n], t[n]);
      LettersAre(t[n], s[n]);
      SpacesAre(s[0]);
      SpacesAre(t[0]);
      SpacesAre(s[n]);
      SpacesAre(t[n]);
    }
  }

  // ---- ToLower and Normalize ----

  lemma ToLowerSame(s: string, t: string)
    ensures ToLower(s) == ToLower(t) <==> SameLetters(s, t)
    ensures SameLetters(s, ToLower(s)) && NoCapitals(ToLower(s)) && ToLower(ToLower(s)) == ToLower(s)
  {
    forall c, d ensures LowerChar(c) == LowerChar(d) <==> SameLetter(c, d) { LettersAre(c, d); }
    forall c ensures LowerChar(LowerChar(c)) == LowerChar(c) && !('A' <= LowerChar(c) <= 'Z') { LettersAre(c, c); }
    if ToLower(s) == ToLower(t) {
      forall i | 0 <= i < |s| ensures SameLetter(s[i], t[i]) {
        assert ToLower(s)[i] == ToLower(t)[i];
      }
    }
    forall i | 0 <= i < |s| ensures SameLetter(s[i], ToLower(s)[i]) {
      assert LowerChar(s[i]) == LowerChar(ToLower(s)[i]);
    }
  }

  /** A normal form has no capitals and no white space at its ends, and is the trimmed string up to case. */
  lemma NormalForm(s: string)
    ensures NoCapitals(Normalize(s)) && Trim(Normalize(s)) && SameLetters(TrimSpace(s), Normalize(s))
  {
    TrimSpaceTrims(s);
    ToLowerSame(TrimSpace(s), TrimSpace(s));
    SameLettersTrim(TrimSpace(s), Normalize(s));
  }

  lemma TrimmedIs(s: string)
    requires Trim(s)
    ensures TrimSpace(s) == s
  {
    TrimSpacePadded("", s, "");
    assert "" + s + "" == s;
  }

  /** Normalising twice is normalising once, so a stored email is found under itself. */
  lemma NormalizeIdempotent(s: string)
    ensures Normalize(Normalize(s)) == Normalize(s)
    ensures Normalize(ToLower(TrimSpace(s))) == Normalize(s) && Normalize(TrimSpace(s)) == Normalize(s)
  {
    NormalForm(s);
    TrimSpaceTrims(s);
    TrimmedIs(Normalize(s));
    TrimmedIs(TrimSpace(s));
    ToLowerSame(TrimSpace(s), TrimSpace(s));
  }

  /** Two strings have one normal form exactly when they spell the same, white space and case aside. */
  lemma SpellingsNormalize(s: string, left: string, t: string, right: string)
    requires Blank(left) && Blank(right) && Trim(t)
    ensures Normalize(left + t + right) == Normalize(s) <==> SameLetters(TrimSpace(s), t)
  {
    TrimSpacePadded(left, t, right);
    ToLowerSame(TrimSpace(s), t);
  }

  /** An email in normal form is what exactly its spellings normalise to. */
  lemma SpellsIff(spelling: string, email: string)
    requires NoCapitals(email) && Trim(email)
    ensures Spells(spelling, email) <==> Normalize(spelling) == email
  {
    ToLowerSame(email, email);
    assert ToLower(email) == email by {
      forall i | 0 <= i < |email| ensures LowerChar(email[i]) == email[i] { LettersAre(email[i], email[i]); }
    }
    if Spells(spelling, email) {
      var left, core, right :| SplitsAs(spelling, left, core, right) && SameLetters(core, email);
      SameLettersTrim(email, core);
      TrimSpacePadded(left, core, right);
      ToLowerSame(core, email);
    }
    if Normalize(spelling) == email {
      var left, right := TrimSpaceSplits(spelling);
      NormalForm(spelling);
      assert SplitsAs(spelling, left, TrimSpace(spelling), right);
    }
  }
}
