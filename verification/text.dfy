/** Trimming and lower-casing of ASCII text. */
module Text {

  /** ASCII white space, as `str.isspace` and `str.strip` see it. */
  predicate IsSpace(c: char) {
    c == ' ' || ('\t' <= c <= '\r') || ('\U{1c}' <= c <= '\U{1f}')
  }

  function Lower(c: char): char {
    if 'A' <= c <= 'Z' then (c as int + 32) as char else c
  }

  function LowerAll(text: string): string {
    seq(|text|, i requires 0 <= i < |text| => Lower(text[i]))
  }

  function StripLeft(text: string): string {
    if text == "" || !IsSpace(text[0]) then text else StripLeft(text[1..])
  }

  function StripRight(text: string): string {
    if text == "" || !IsSpace(text[|text| - 1]) then text else StripRight(text[..|text| - 1])
  }

  function Strip(text: string): string {
    StripRight(StripLeft(text))
  }

  predicate Stripped(text: string) {
    text != "" ==> !IsSpace(text[0]) && !IsSpace(text[|text| - 1])
  }

  lemma {:induction false} StripRightKeepsStart(text: string)
    ensures var r := StripRight(text);
            && (r != "" ==> !IsSpace(r[|r| - 1]))
            && (text != "" && !IsSpace(text[0]) ==> r != "" && r[0] == text[0])
  {
    if text != "" && IsSpace(text[|text| - 1]) {
      StripRightKeepsStart(text[..|text| - 1]);
    }
  }

  lemma {:induction false} StripLeftStarts(text: string)
    ensures var r := StripLeft(text); r != "" ==> !IsSpace(r[0])
  {
    if text != "" && IsSpace(text[0]) {
      StripLeftStarts(text[1..]);
    }
  }

  lemma StripStrips(text: string)
    ensures Stripped(Strip(text))
  {
    StripLeftStarts(text);
    StripRightKeepsStart(StripLeft(text));
  }

  lemma StrippedStays(text: string)
    requires Stripped(text)
    ensures Strip(text) == text
  {
  }

  // ---------- what trimming and lower-casing amount to ----------

  const WHITE_SPACE: string := [' ', '\t', '\n', '\U{b}', '\U{c}', '\r', '\U{1c}', '\U{1d}', '\U{1e}', '\U{1f}']

  lemma SpacesAre(c: char)
    ensures IsSpace(c) <==> c in WHITE_SPACE
  {
  }

  predicate Blank(text: string) {
    forall i :: 0 <= i < |text| ==> IsSpace(text[i])
  }

  lemma {:induction false} StripLeftSplits(text: string) returns (before: string)
    ensures Blank(before) && text == before + StripLeft(text)
  {
    if text == "" || !IsSpace(text[0]) {
      before := "";
    } else {
      var rest := StripLeftSplits(text[1..]);
      before := [text[0]] + rest;
    }
  }

  lemma {:induction false} StripRightSplits(text: string) returns (after: string)
    ensures Blank(after) && text == StripRight(text) + after
  {
    if text == "" || !IsSpace(text[|text| - 1]) {
      after := "";
    } else {
      var rest := StripRightSplits(text[..|text| - 1]);
      after := rest + [text[|text| - 1]];
    }
  }

  /** Trimming removes white space at both ends, all of it, and nothing else. */
  lemma StripSplits(text: string) returns (before: string, after: string)
    ensures Blank(before) && Blank(after) && text == before + Strip(text) + after && Stripped(Strip(text))
  {
    before := StripLeftSplits(text);
    after := StripRightSplits(StripLeft(text));
    StripStrips(text);
  }

  lemma {:induction false} BlankStripsAway(text: string)
    requires Blank(text)
    ensures StripLeft(text) == ""
  {
    if text != "" {
      BlankStripsAway(text[1..]);
    }
  }

  /** Exactly a text of white space, if any, is trimmed to nothing. */
  lemma TrimmedToNothing(text: string)
    ensures Strip(text) == "" <==> Blank(text)
  {
    if Blank(text) {
      BlankStripsAway(text);
    }
    var before, after := StripSplits(text);
  }

  const CAPITALS := "ABCDEFGHIJKLMNOPQRSTUVWXYZ"

  const SMALL_LETTERS := "abcdefghijklmnopqrstuvwxyz"

  /** `d` is the small letter of the capital `c`. */
  predicate CapitalOf(c: char, d: char) {
    exists i :: 0 <= i < 26 && CAPITALS[i] == c && SMALL_LETTERS[i] == d
  }

  predicate SameLetter(c: char, d: char) {
    c == d || CapitalOf(c, d) || CapitalOf(d, c)
  }

  predicate SameButCase(a: string, b: string) {
    |a| == |b| && forall i :: 0 <= i < |a| ==> SameLetter(a[i], b[i])
  }

  lemma Alphabet(i: nat)
    requires i < 26
    ensures |CAPITALS| == |SMALL_LETTERS| == 26
    ensures CAPITALS[i] as int == 'A' as int + i && SMALL_LETTERS[i] as int == 'a' as int + i
  {
  }

  lemma CapitalIs(c: char, d: char)
    ensures CapitalOf(c, d) <==> 'A' <= c <= 'Z' && d as int == c as int + 32
  {
    if CapitalOf(c, d) {
      var i :| 0 <= i < 26 && CAPITALS[i] == c && SMALL_LETTERS[i] == d;
      Alphabet(i);
    }
    if 'A' <= c <= 'Z' && d as int == c as int + 32 {
      Alphabet(c as int - 'A' as int);
    }
  }

  /** No capital is left, and only capitals change, each into its small letter. */
  lemma LowerIs(c: char)
    ensures Lower(c) !in CAPITALS
    ensures if c in CAPITALS then CapitalOf(c, Lower(c)) else Lower(c) == c
  {
    forall i | 0 <= i < 26 ensures 'A' <= CAPITALS[i] <= 'Z' {
      Alphabet(i);
    }
    if 'A' <= c <= 'Z' {
      Alphabet(c as int - 'A' as int);
      CapitalIs(c, Lower(c));
    }
  }

  lemma LowerDecides(c: char, d: char)
    ensures Lower(c) == Lower(d) <==> SameLetter(c, d)
  {
    CapitalIs(c, d);
    CapitalIs(d, c);
  }

  /** Lower-casing identifies exactly the texts that differ only in the case of letters. */
  lemma LowerAllDecides(a: string, b: string)
    ensures LowerAll(a) == LowerAll(b) <==> SameButCase(a, b)
  {
    if |a| == |b| {
      forall i | 0 <= i < |a| ensures LowerAll(a)[i] == LowerAll(b)[i] <==> SameLetter(a[i], b[i]) {
        LowerDecides(a[i], b[i]);
      }
    }
  }

  /** A text without capitals is its own lower case, and the lower case of what differs from it only in case. */
  lemma LowerAllIs(a: string, b: string)
    requires forall i :: 0 <= i < |b| ==> b[i] !in CAPITALS
    ensures LowerAll(b) == b && (LowerAll(a) == b <==> SameButCase(a, b))
  {
    forall i | 0 <= i < |b| ensures Lower(b[i]) == b[i] {
      LowerIs(b[i]);
    }
    assert LowerAll(b) == b;
    LowerAllDecides(a, b);
  }
}
