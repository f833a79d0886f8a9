/** Which characters of a text matter to the normaliser: letter case, white space, and everything inside quotes. */
module SqlLetters {
  import opened Common
  import opened SqlGaps
  import opened SqlTokens
  import opened Text

  /** A character that is no white space, quote, parenthesis or comma. */
  predicate Ordinary(c: char) {
    c !in WHITE_SPACE && c != '\'' && c != '"' && c != '(' && c != ')' && c != ','
  }

  lemma OrdinaryIsPlain(c: char)
    ensures Ordinary(c) <==> !IsSpace(c) && !IsQuote(c) && !IsMark(c)
  {
    SpacesAre(c);
  }

  // ---------- a character outside quotes ----------

  lemma LexOrdinary(c: char, z: string, gap: bool)
    requires Ordinary(c)
    ensures Lex([c] + z, gap) == [Lexeme(gap, Plain(c))] + Lex(z, false)
  {
    OrdinaryIsPlain(c);
    assert ([c] + z)[1..] == z;
  }

  /** What follows an ordinary character does not depend on which one it is. */
  lemma CanonAfterPlain(ls: seq<Lexeme>, c: char, d: char)
    ensures Canon(ls, Some(Plain(c))) == Canon(ls, Some(Plain(d)))
  {
  }

  /** Whether a gap before an ordinary character is kept after a balanced prefix. */
  predicate GapKept(s: string) {
    var prev := LastAtom(Before(s, false), None);
    GapAt(s, false) && prev.Some? && !Opens(prev.value)
  }

  lemma BalancedCharacter(s: string, c: char, z: string)
    requires Balanced(s) && Ordinary(c)
    ensures Canon(Lex(s + ([c] + z), false), None)
         == Canon(Before(s, false), None)
            + ([Lexeme(GapKept(s), Plain(Lower(c)))] + Canon(Lex(z, false), Some(Plain('x'))))
  {
    OrdinaryIsPlain(c);
    LexAround(s, [c] + z, false);
    assert s[OpenAt(s)..] + ([c] + z) == [c] + z;
    LexOrdinary(c, z, GapAt(s, false));
    var p, l := Before(s, false), Lexeme(GapAt(s, false), Plain(c));
    CanonSplit(p, [l] + Lex(z, false), None);
    CanonCons(l, Lex(z, false), LastAtom(p, None));
    CanonAfterPlain(Lex(z, false), c, 'x');
  }

  lemma SameMiddle(p: seq<Lexeme>, x: Lexeme, y: Lexeme, z: seq<Lexeme>)
    ensures p + ([x] + z) == p + ([y] + z) <==> x == y
  {
    assert (p + ([x] + z))[|p|] == x && (p + ([y] + z))[|p|] == y;
  }

  // ---------- a character inside an open quote ----------

  function TextAt(ls: seq<Lexeme>, i: nat): string {
    if i < |ls| then AtomText(ls[i].atom) else ""
  }

  lemma OpenText(s: string, y: string)
    requires !Balanced(s) && y != "" && !IsQuote(y[0]) && s[OpenAt(s)..] + y != ""
    ensures var t := s[OpenAt(s)..] + y;
            TextAt(Canon(Lex(s + y, false), None), |Before(s, false)|) == t[..QuotedLength(t)]
  {
    OpenTail(s);
    LexAround(s, y, false);
    var p, t := Before(s, false), s[OpenAt(s)..] + y;
    assert t[0] == s[OpenAt(s)..][0];
    CanonSplit(p, Lex(t, GapAt(s, false)), None);
    CanonLength(p, None);
  }

  /** The quoted text shows the character itself. */
  lemma OpenShows(s: string, c: char, z: string)
    requires !Balanced(s) && !IsQuote(c)
    ensures var n, text := |s| - OpenAt(s), TextAt(Canon(Lex(s + ([c] + z), false), None), |Before(s, false)|);
            n < |text| && text[n] == c
  {
    var t := s[OpenAt(s)..];
    OpenTail(s);
    OpenText(s, [c] + z);
    OpenQuoteLength(t, [c] + z);
    RemainderSkips(c, z, t[0]);
    assert (t + ([c] + z))[|t|] == c;
  }

  lemma OpenCharacter(s: string, c: char, d: char, z: string)
    requires !Balanced(s) && !IsQuote(c) && !IsQuote(d) && c != d
    ensures Canon(Lex(s + ([c] + z), false), None) != Canon(Lex(s + ([d] + z), false), None)
  {
    OpenShows(s, c, z);
    OpenShows(s, d, z);
  }

  // ---------- main results ----------

  /** One ordinary character may stand for another exactly outside quotes, as the other case of the same letter. */
  lemma LetterMatters(a: string, c: char, d: char, b: string)
    requires Ordinary(c) && Ordinary(d)
    ensures Normalized(a + ([c] + b)) == Normalized(a + ([d] + b))
       <==> c == d || (Balanced(a) && SameLetter(c, d))
  {
    OrdinaryIsPlain(c);
    OrdinaryIsPlain(d);
    NormalFormDecidesTokens(a + ([c] + b), a + ([d] + b));
    StripAround(a, c, b);
    StripAround(a, d, b);
    StripLeftBalanced(a);
    var s, z := StripLeft(a), StripRight(b);
    if Balanced(a) {
      BalancedCharacter(s, c, z);
      BalancedCharacter(s, d, z);
      LowerDecides(c, d);
      SameMiddle(
        Canon(Before(s, false), None), Lexeme(GapKept(s), Plain(Lower(c))), Lexeme(GapKept(s), Plain(Lower(d))),
        Canon(Lex(z, false), Some(Plain('x'))));
    } else if c != d {
      OpenCharacter(s, c, d, z);
    }
  }

  lemma {:induction false} CanonIsLower(ls: seq<Lexeme>, prev: Option<Atom>)
    ensures forall l :: l in Canon(ls, prev) && l.atom.Plain? ==> l.atom.c !in CAPITALS
  {
    if ls != [] {
      CanonIsLower(ls[1..], Some(ls[0].atom));
      if ls[0].atom.Plain? {
        LowerIs(ls[0].atom.c);
      }
    }
  }

  /** No capital stands outside the quotes of a normal form. */
  lemma NormalFormHasNoCapital(text: string)
    ensures forall l :: l in Lex(Normalized(text), false) && l.atom.Plain? ==> l.atom.c !in CAPITALS
  {
    TokensOfNormalized(text);
    CanonIsLower(Lex(Strip(text), false), None);
  }

  predicate Quoteless(text: string) {
    forall i :: 0 <= i < |text| ==> text[i] != '\'' && text[i] != '"'
  }

  predicate NothingQuoted(ls: seq<Lexeme>) {
    forall i :: 0 <= i < |ls| ==> !ls[i].atom.Quoted?
  }

  lemma {:induction false} QuotelessLex(text: string, gap: bool)
    requires Quoteless(text)
    ensures NothingQuoted(Lex(text, gap))
    decreases |text|
  {
    if text != "" {
      QuotelessLex(text[1..], IsSpace(text[0]));
    }
  }

  lemma {:induction false} CanonQuotesNothing(ls: seq<Lexeme>, prev: Option<Atom>)
    requires NothingQuoted(ls)
    ensures NothingQuoted(Canon(ls, prev))
  {
    if ls != [] {
      CanonQuotesNothing(ls[1..], Some(ls[0].atom));
      assert !ls[0].atom.Quoted?;
    }
  }

  predicate CapitalFree(text: string) {
    forall i :: 0 <= i < |text| ==> text[i] !in CAPITALS
  }

  lemma CapitalFreeAppend(a: string, b: string)
    requires CapitalFree(a) && CapitalFree(b)
    ensures CapitalFree(a + b)
  {
  }

  lemma LexemeCapitalFree(l: Lexeme)
    requires !l.atom.Quoted? && (l.atom.Mark? ==> IsMark(l.atom.c)) && (l.atom.Plain? ==> l.atom.c !in CAPITALS)
    ensures CapitalFree(LexemeText(l))
  {
  }

  lemma {:induction false} RenderedCapitalFree(ls: seq<Lexeme>)
    requires WellLexed(ls) && NothingQuoted(ls)
    requires forall i :: 0 <= i < |ls| && ls[i].atom.Plain? ==> ls[i].atom.c !in CAPITALS
    ensures CapitalFree(Render(ls))
  {
    if ls != [] {
      RenderedCapitalFree(ls[1..]);
      LexemeCapitalFree(ls[0]);
      CapitalFreeAppend(LexemeText(ls[0]), Render(ls[1..]));
    }
  }

  /** So the normal form of a text without quotes has no capital at all. */
  lemma QuotelessHasNoCapital(text: string)
    requires Quoteless(text)
    ensures CapitalFree(Normalized(text))
  {
    var before, after := StripSplits(text);
    forall i | 0 <= i < |Strip(text)| ensures Strip(text)[i] != '\'' && Strip(text)[i] != '"' {
      assert Strip(text)[i] == text[|before| + i];
    }
    var ls := Lex(Strip(text), false);
    QuotelessLex(Strip(text), false);
    CanonQuotesNothing(ls, None);
    CanonIsLower(ls, None);
    LexIsWell(Strip(text), false);
    CanonIsWell(ls, None);
    RenderedCapitalFree(Canon(ls, None));
  }

  lemma {:induction false} RemainderToEnd(body: string, q: char)
    requires forall i :: 0 <= i < |body| ==> body[i] != q
    ensures Remainder(body + [q], q) == |body| + 1
  {
    if body == "" {
      assert body + [q] == [q];
    } else {
      assert (body + [q])[1..] == body[1..] + [q];
      RemainderToEnd(body[1..], q);
    }
  }

  /** Quoted text is kept as it is, with its capitals, gaps, parentheses and commas. */
  lemma QuotedIsVerbatim(body: string, q: char)
    requires q == '\'' || q == '"'
    requires forall i :: 0 <= i < |body| ==> body[i] != q
    ensures Normalized([q] + body + [q]) == [q] + body + [q]
  {
    var text := [q] + body + [q];
    StrippedStays(text);
    assert text[1..] == body + [q];
    RemainderToEnd(body, q);
    assert text[..|text|] == text && text[|text|..] == "";
    assert Lex("", false) == [];
    var l := Lexeme(false, Quoted(text));
    assert Lex(text, false) == [l] + [] && [l] + [] == [l];
    CanonCons(l, [], None);
    RenderCons(l, []);
  }

  // ---------- white space ----------

  lemma {:induction false} StripLeftKeeps(a: string, y: string)
    ensures StripLeft(a + y) == if StripLeft(a) != "" then StripLeft(a) + y else StripLeft(y)
  {
    if a == "" {
      assert a + y == y;
    } else if IsSpace(a[0]) {
      assert (a + y)[1..] == a[1..] + y;
      StripLeftKeeps(a[1..], y);
    }
  }

  lemma {:induction false} StripRightKeeps(s: string, y: string)
    ensures StripRight(s + y) == if StripRight(y) != "" then s + StripRight(y) else StripRight(s)
  {
    if y == "" {
      assert s + y == s;
    } else if IsSpace(y[|y| - 1]) {
      assert (s + y)[..|s + y| - 1] == s + y[..|y| - 1];
      StripRightKeeps(s, y[..|y| - 1]);
    }
  }

  lemma {:induction false} StripRightAfterSpace(c: char, b: string)
    requires IsSpace(c)
    ensures StripRight([c] + b) == if Blank(b) then "" else [c] + StripRight(b)
  {
    StripRightPrefix(b);
    if b == "" {
      assert [c] + b == [c] && [c][..0] == "";
    } else if IsSpace(b[|b| - 1]) {
      assert ([c] + b)[..|b|] == [c] + b[..|b| - 1];
      StripRightAfterSpace(c, b[..|b| - 1]);
      StripRightPrefix(b[..|b| - 1]);
    }
  }

  lemma SpaceInText(a: string, c: char, b: string)
    requires IsSpace(c)
    ensures Strip(a + ([c] + b))
         == if StripLeft(a) == "" then Strip(b)
            else if Blank(b) then StripRight(StripLeft(a)) else StripLeft(a) + ([c] + StripRight(b))
  {
    StripLeftKeeps(a, [c] + b);
    assert ([c] + b)[1..] == b;
    StripRightKeeps(StripLeft(a), [c] + b);
    StripRightAfterSpace(c, b);
  }

  lemma BalancedSpace(s: string, c: char, z: string)
    requires Balanced(s) && IsSpace(c)
    ensures Lex(s + ([c] + z), false) == Before(s, false) + Lex(z, true)
  {
    LexAround(s, [c] + z, false);
    assert s[OpenAt(s)..] + ([c] + z) == [c] + z && ([c] + z)[1..] == z;
  }

  /** One kind of white space may stand for another exactly outside quotes, or where it is trimmed anyway. */
  lemma SpaceMatters(a: string, c: char, d: char, b: string)
    requires c in WHITE_SPACE && d in WHITE_SPACE
    ensures Normalized(a + ([c] + b)) == Normalized(a + ([d] + b)) <==> c == d || Balanced(a) || Blank(b)
  {
    SpacesAre(c);
    SpacesAre(d);
    NormalFormDecidesTokens(a + ([c] + b), a + ([d] + b));
    SpaceInText(a, c, b);
    SpaceInText(a, d, b);
    StripLeftBalanced(a);
    var s, z := StripLeft(a), StripRight(b);
    if s != "" && !Blank(b) {
      if Balanced(a) {
        BalancedSpace(s, c, z);
        BalancedSpace(s, d, z);
      } else if c != d {
        OpenCharacter(s, c, d, z);
      }
    }
  }

  // ---------- a gap between ordinary characters ----------

  lemma BalancedPair(s: string, x: char, y: char, z: string)
    requires Balanced(s) && Ordinary(x) && Ordinary(y)
    ensures SecondGap(Canon(Lex(s + ([x] + ([y] + z)), false), None), |Before(s, false)|) == Some(false)
    ensures SecondGap(Canon(Lex(s + ([x] + ([' '] + ([y] + z))), false), None), |Before(s, false)|) == Some(true)
  {
    var p := Canon(Before(s, false), None);
    CanonLength(Before(s, false), None);
    BalancedCharacter(s, x, [y] + z);
    BalancedCharacter(s, x, [' '] + ([y] + z));
    LexOrdinary(y, z, false);
    LexOrdinary(y, z, true);
    LexGapBefore([y] + z);
    CanonCons(Lexeme(false, Plain(y)), Lex(z, false), Some(Plain('x')));
    CanonCons(Lexeme(true, Plain(y)), Lex(z, false), Some(Plain('x')));
  }

  /** The gap before the lexeme after the n-th. */
  function SecondGap(ls: seq<Lexeme>, n: nat): Option<bool> {
    if n + 1 < |ls| then Some(ls[n + 1].gap) else None
  }

  lemma OpenPair(s: string, x: char, y: char, z: string)
    requires !Balanced(s) && Ordinary(x) && Ordinary(y)
    ensures Canon(Lex(s + ([x] + ([' '] + ([y] + z))), false), None)
         != Canon(Lex(s + ([x] + ([y] + z)), false), None)
  {
    var t := s[OpenAt(s)..];
    OpenTail(s);
    OrdinaryIsPlain(x);
    OpenQuoteLength(t, [x] + ([y] + z));
    OpenQuoteLength(t, [x] + ([' '] + ([y] + z)));
    RemainderSkips(x, [y] + z, t[0]);
    RemainderSkips(x, [' '] + ([y] + z), t[0]);
    RemainderSkips(' ', [y] + z, t[0]);
    OpenDiffers(s, [x] + ([' '] + ([y] + z)), [x] + ([y] + z));
  }

  /** White space between two ordinary characters always matters. */
  lemma GapBetweenMatters(a: string, x: char, y: char, b: string)
    requires Ordinary(x) && Ordinary(y)
    ensures Normalized(a + ([x] + ([' '] + ([y] + b)))) != Normalized(a + ([x] + ([y] + b)))
  {
    OrdinaryIsPlain(x);
    OrdinaryIsPlain(y);
    NormalFormDecidesTokens(a + ([x] + ([' '] + ([y] + b))), a + ([x] + ([y] + b)));
    StripAround(a, x, [' '] + ([y] + b));
    StripAround(a, x, [y] + b);
    StripRightKeeps([' '], [y] + b);
    StripRightAfter(y, b);
    StripLeftBalanced(a);
    var s, z := StripLeft(a), StripRight(b);
    if Balanced(a) {
      BalancedPair(s, x, y, z);
    } else {
      OpenPair(s, x, y, z);
    }
  }
}
