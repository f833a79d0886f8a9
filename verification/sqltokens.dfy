/** The lexemes of a SQL CHECK text, and its normal form as a rendering of canonical lexemes. */
module SqlTokens {
  import opened Common
  import opened Text

  predicate IsQuote(c: char) {
    c == '\'' || c == '"'
  }

  predicate IsMark(c: char) {
    c == '(' || c == ')' || c == ','
  }

  /** A quoted atom holds its text from the opening quote to the closing one, or to the end of the input. */
  datatype Atom = Quoted(text: string) | Mark(c: char) | Plain(c: char)

  /** An atom and whether white space stands before it. */
  datatype Lexeme = Lexeme(gap: bool, atom: Atom)

  /** How many characters a quoted atom goes on for after its opening quote; a doubled quote does not end it. */
  function Remainder(text: string, q: char): (n: nat)
    ensures n <= |text|
  {
    if text == "" then 0
    else if text[0] != q then 1 + Remainder(text[1..], q)
    else if |text| > 1 && text[1] == q then 2 + Remainder(text[2..], q)
    else 1
  }

  function Lex(text: string, gap: bool): seq<Lexeme>
    decreases |text|
  {
    if text == "" then []
    else if IsSpace(text[0]) then Lex(text[1..], true)
    else if IsQuote(text[0]) then
      var n := 1 + Remainder(text[1..], text[0]);
      [Lexeme(gap, Quoted(text[..n]))] + Lex(text[n..], false)
    else
      [Lexeme(gap, if IsMark(text[0]) then Mark(text[0]) else Plain(text[0]))] + Lex(text[1..], false)
  }

  /** No gap is kept after `(` or `,`. */
  predicate Opens(a: Atom) {
    a.Mark? && a.c != ')'
  }

  predicate KeepsGap(prev: Option<Atom>, a: Atom) {
    prev.Some? && !Opens(prev.value) && !a.Mark?
  }

  function Fold(a: Atom): Atom {
    if a.Plain? then Plain(Lower(a.c)) else a
  }

  /** Plain atoms in lower case, and gaps only where they separate something. */
  function Canon(ls: seq<Lexeme>, prev: Option<Atom>): seq<Lexeme> {
    if ls == [] then []
    else
      [Lexeme(ls[0].gap && KeepsGap(prev, ls[0].atom), Fold(ls[0].atom))] + Canon(ls[1..], Some(ls[0].atom))
  }

  function AtomText(a: Atom): string {
    if a.Quoted? then a.text else [a.c]
  }

  function LexemeText(l: Lexeme): string {
    (if l.gap then " " else "") + AtomText(l.atom)
  }

  function Render(ls: seq<Lexeme>): string {
    if ls == [] then "" else LexemeText(ls[0]) + Render(ls[1..])
  }

  /** What of a text is semantic: its canonical lexemes. */
  function Tokens(text: string): seq<Lexeme> {
    Canon(Lex(Strip(text), false), None)
  }

  function Normalized(text: string): string {
    Render(Tokens(text))
  }

  // ---------- streams that a lexer can produce ----------

  /** `body` is what follows an opening quote up to and including the closing one. */
  predicate Closed(body: string, q: char) {
    body != "" &&
    if body[0] != q then Closed(body[1..], q)
    else if |body| > 1 then body[1] == q && Closed(body[2..], q)
    else true
  }

  /** `body` follows an opening quote that is never closed. */
  predicate Unclosed(body: string, q: char) {
    body == "" ||
    if body[0] != q then Unclosed(body[1..], q)
    else |body| > 1 && body[1] == q && Unclosed(body[2..], q)
  }

  lemma {:induction false} RemainderEnds(text: string, q: char)
    ensures var n := Remainder(text, q);
            || (Closed(text[..n], q) && (n < |text| ==> text[n] != q))
            || (n == |text| && Unclosed(text, q))
  {
    var n := Remainder(text, q);
    if text == "" {
    } else if text[0] != q {
      RemainderEnds(text[1..], q);
      assert text[..n][1..] == text[1..][..n - 1];
    } else if |text| > 1 && text[1] == q {
      RemainderEnds(text[2..], q);
      assert text[..n][2..] == text[2..][..n - 2];
    }
  }

  lemma {:induction false} RemainderOfClosed(body: string, rest: string, q: char)
    requires Closed(body, q) && (rest != "" ==> rest[0] != q)
    ensures Remainder(body + rest, q) == |body|
  {
    if body[0] != q {
      assert (body + rest)[1..] == body[1..] + rest;
      RemainderOfClosed(body[1..], rest, q);
    } else if |body| > 1 {
      assert (body + rest)[2..] == body[2..] + rest;
      RemainderOfClosed(body[2..], rest, q);
    }
  }

  lemma {:induction false} RemainderOfUnclosed(body: string, q: char)
    requires Unclosed(body, q)
    ensures Remainder(body, q) == |body|
  {
    if body != "" {
      if body[0] != q {
        RemainderOfUnclosed(body[1..], q);
      } else {
        RemainderOfUnclosed(body[2..], q);
      }
    }
  }

  predicate StartsWith(text: string, q: char) {
    text != "" && text[0] == q
  }

  /** The atom can stand before `rest` without running into it. */
  predicate AtomFits(a: Atom, rest: seq<Lexeme>) {
    match a
    case Quoted(t) =>
      && t != "" && IsQuote(t[0])
      && (|| (Closed(t[1..], t[0]) && !StartsWith(Render(rest), t[0]))
          || (Unclosed(t[1..], t[0]) && rest == []))
    case Mark(c) => IsMark(c)
    case Plain(c) => !IsMark(c) && !IsQuote(c) && !IsSpace(c)
  }

  predicate WellLexed(ls: seq<Lexeme>) {
    ls == [] || (AtomFits(ls[0].atom, ls[1..]) && WellLexed(ls[1..]))
  }

  /** A rendering starts with a space, or with the first character of its first atom. */
  lemma RenderStarts(ls: seq<Lexeme>)
    requires WellLexed(ls) && ls != []
    ensures Render(ls) != "" && Render(ls)[0] == if ls[0].gap then ' ' else AtomText(ls[0].atom)[0]
  {
    assert AtomText(ls[0].atom) != "";
  }

  lemma {:induction false} LexStarts(text: string)
    ensures var ls := Lex(text, false);
            ls != [] ==> text != "" && (ls[0].gap || (AtomText(ls[0].atom) != "" && AtomText(ls[0].atom)[0] == text[0]))
  {
    if text != "" && IsSpace(text[0]) {
      LexGap(text[1..]);
    }
  }

  lemma {:induction false} LexGap(text: string)
    ensures var ls := Lex(text, true); ls != [] ==> ls[0].gap
    decreases |text|
  {
    if text != "" && IsSpace(text[0]) {
      LexGap(text[1..]);
    }
  }

  lemma {:induction false} LexIsWell(text: string, gap: bool)
    ensures WellLexed(Lex(text, gap))
    decreases |text|
  {
    if text == "" {
    } else if IsSpace(text[0]) {
      LexIsWell(text[1..], true);
    } else if IsQuote(text[0]) {
      var body := text[1..];
      var n := Remainder(body, text[0]);
      RemainderEnds(body, text[0]);
      var rest := Lex(text[n + 1..], false);
      LexIsWell(text[n + 1..], false);
      assert text[..n + 1][1..] == body[..n];
      assert body[..|body|] == body;
      LexStarts(text[n + 1..]);
      if rest != [] {
        RenderStarts(rest);
        assert body[n] == text[n + 1];
      }
    } else {
      LexIsWell(text[1..], false);
    }
  }

  /** The quoted text at the head of a rendering ends where it ended. */
  lemma QuotedEnds(t: string, ls: seq<Lexeme>)
    requires AtomFits(Quoted(t), ls)
    ensures t != "" && IsQuote(t[0]) && !IsSpace(t[0])
    ensures (t + Render(ls))[0] == t[0] && 1 + Remainder((t + Render(ls))[1..], t[0]) == |t|
  {
    var rest := Render(ls);
    assert (t + rest)[1..] == t[1..] + rest;
    if Closed(t[1..], t[0]) && !StartsWith(rest, t[0]) {
      RemainderOfClosed(t[1..], rest, t[0]);
    } else {
      assert rest == "" && t[1..] + rest == t[1..];
      RemainderOfUnclosed(t[1..], t[0]);
    }
  }

  lemma LexQuoted(t: string, rest: string, gap: bool)
    requires t != "" && IsQuote(t[0]) && !IsSpace(t[0])
    requires 1 + Remainder((t + rest)[1..], t[0]) == |t|
    ensures Lex(t + rest, gap) == [Lexeme(gap, Quoted(t))] + Lex(rest, false)
  {
    var text := t + rest;
    assert text[..|t|] == t && text[|t|..] == rest;
  }

  lemma LexAtom(a: Atom, gap: bool, ls: seq<Lexeme>)
    requires AtomFits(a, ls)
    ensures Lex(AtomText(a) + Render(ls), gap) == [Lexeme(gap, a)] + Lex(Render(ls), false)
  {
    if a.Quoted? {
      QuotedEnds(a.text, ls);
      LexQuoted(a.text, Render(ls), gap);
    } else {
      assert (AtomText(a) + Render(ls))[1..] == Render(ls);
    }
  }

  lemma LexSpace(text: string, gap: bool)
    requires text != "" && IsSpace(text[0])
    ensures Lex(text, gap) == Lex(text[1..], true)
  {
  }

  lemma LexLexeme(l: Lexeme, ls: seq<Lexeme>)
    requires AtomFits(l.atom, ls)
    ensures Lex(LexemeText(l) + Render(ls), false) == [l] + Lex(Render(ls), false)
  {
    var tail, text := AtomText(l.atom) + Render(ls), LexemeText(l) + Render(ls);
    if l.gap {
      assert text[0] == ' ' && text[1..] == tail;
      LexSpace(text, false);
    } else {
      assert text == tail;
    }
    LexAtom(l.atom, l.gap, ls);
  }

  /** Reading a rendering gives back the lexemes: nothing merges, splits or moves. */
  lemma {:induction false} LexRender(ls: seq<Lexeme>)
    requires WellLexed(ls)
    ensures Lex(Render(ls), false) == ls
  {
    if ls != [] {
      LexRender(ls[1..]);
      LexLexeme(ls[0], ls[1..]);
    }
  }

  // ---------- canonical streams ----------

  lemma {:induction false} CanonIsWell(ls: seq<Lexeme>, prev: Option<Atom>)
    requires WellLexed(ls)
    ensures WellLexed(Canon(ls, prev))
  {
    if ls != [] {
      var a, rest := ls[0].atom, ls[1..];
      var rest' := Canon(rest, Some(a));
      CanonIsWell(rest, Some(a));
      assert Canon(ls, prev)[1..] == rest';
      if rest != [] {
        RenderStarts(rest);
        RenderStarts(rest');
      }
      assert AtomFits(Fold(a), rest');
    }
  }

  lemma {:induction false} CanonTwice(ls: seq<Lexeme>, prev: Option<Atom>, prev': Option<Atom>)
    requires prev == prev' || (prev.Some? && prev' == Some(Fold(prev.value)))
    ensures Canon(Canon(ls, prev), prev') == Canon(ls, prev)
  {
    if ls != [] {
      var l := Canon(ls, prev)[0];
      assert Canon(ls, prev)[1..] == Canon(ls[1..], Some(ls[0].atom));
      CanonTwice(ls[1..], Some(ls[0].atom), Some(l.atom));
      assert Fold(l.atom) == l.atom;
      assert l.gap ==> KeepsGap(prev', l.atom);
    }
  }

  /** The atom at the head of a text that does not start with white space. */
  function FirstAtom(text: string): (a: Atom)
    requires text != "" && !IsSpace(text[0])
    ensures AtomText(a) <= text && AtomText(a) != ""
  {
    if IsQuote(text[0]) then Quoted(text[..1 + Remainder(text[1..], text[0])])
    else if IsMark(text[0]) then Mark(text[0])
    else Plain(text[0])
  }

  lemma LexFirst(text: string, gap: bool)
    requires text != "" && !IsSpace(text[0])
    ensures var a := FirstAtom(text);
            Lex(text, gap) == [Lexeme(gap, a)] + Lex(text[|AtomText(a)|..], false)
  {
  }

  lemma RenderCons(l: Lexeme, ls: seq<Lexeme>)
    ensures Render([l] + ls) == LexemeText(l) + Render(ls)
  {
    assert ([l] + ls)[1..] == ls;
  }

  lemma CanonCons(l: Lexeme, ls: seq<Lexeme>, prev: Option<Atom>)
    ensures Canon([l] + ls, prev)
         == [Lexeme(l.gap && KeepsGap(prev, l.atom), Fold(l.atom))] + Canon(ls, Some(l.atom))
  {
    assert ([l] + ls)[1..] == ls;
  }

  /** The rendering of a text that starts with an atom: that atom, then the rendering of what follows it. */
  lemma FirstAtomRendered(text: string, gap: bool, prev: Option<Atom>)
    requires text != "" && !IsSpace(text[0])
    ensures var a := FirstAtom(text);
            && |AtomText(a)| <= |text|
            && Render(Canon(Lex(text, gap), prev))
               == LexemeText(Lexeme(gap && KeepsGap(prev, a), Fold(a)))
                  + Render(Canon(Lex(text[|AtomText(a)|..], false), Some(a)))
  {
    var a := FirstAtom(text);
    var l, rest := Lexeme(gap && KeepsGap(prev, a), Fold(a)), Lex(text[|AtomText(a)|..], false);
    LexFirst(text, gap);
    CanonCons(Lexeme(gap, a), rest, prev);
    RenderCons(l, Canon(rest, Some(a)));
  }

  predicate EndsVisibly(text: string) {
    text != "" && !IsSpace(text[|text| - 1])
  }

  lemma EndsWithRest(head: string, rest: string)
    requires if rest == "" then EndsVisibly(head) else EndsVisibly(rest)
    ensures EndsVisibly(head + rest)
  {
  }

  lemma NothingRendered(prev: Option<Atom>)
    ensures Render(Canon(Lex("", false), prev)) == ""
  {
  }

  lemma FoldedEnds(a: Atom, l: Lexeme)
    requires EndsVisibly(AtomText(a)) && l.atom == Fold(a)
    ensures EndsVisibly(LexemeText(l))
  {
  }

  /** The last character survives lexing and folding, so a stripped text stays stripped. */
  lemma {:induction false} LastSurvives(text: string, gap: bool, prev: Option<Atom>)
    requires EndsVisibly(text)
    ensures EndsVisibly(Render(Canon(Lex(text, gap), prev)))
    decreases |text|
  {
    if IsSpace(text[0]) {
      LexSpace(text, gap);
      LastSurvives(text[1..], true, prev);
    } else {
      var a := FirstAtom(text);
      var rest := text[|AtomText(a)|..];
      var l := Lexeme(gap && KeepsGap(prev, a), Fold(a));
      FirstAtomRendered(text, gap, prev);
      if rest != "" {
        LastSurvives(rest, false, Some(a));
      } else {
        assert AtomText(a) == text;
        NothingRendered(Some(a));
        FoldedEnds(a, l);
      }
      EndsWithRest(LexemeText(l), Render(Canon(Lex(rest, false), Some(a))));
    }
  }

  lemma FirstSurvives(text: string)
    requires text != "" && !IsSpace(text[0])
    ensures var r := Render(Canon(Lex(text, false), None)); r != "" && !IsSpace(r[0])
  {
    LexIsWell(text, false);
    CanonIsWell(Lex(text, false), None);
    RenderStarts(Canon(Lex(text, false), None));
  }

  lemma NormalizedIsStripped(text: string)
    ensures Stripped(Normalized(text))
  {
    StripStrips(text);
    var s := Strip(text);
    if s != "" {
      FirstSurvives(s);
      LastSurvives(s, false, None);
    }
  }

  // ---------- main results ----------

  /** The canonical lexemes can be read back from the normal form. */
  lemma TokensOfNormalized(text: string)
    ensures Lex(Normalized(text), false) == Tokens(text)
  {
    LexIsWell(Strip(text), false);
    CanonIsWell(Lex(Strip(text), false), None);
    LexRender(Tokens(text));
  }

  /** Two texts normalize alike exactly when their canonical lexemes agree. */
  lemma NormalFormDecidesTokens(a: string, b: string)
    ensures Normalized(a) == Normalized(b) <==> Tokens(a) == Tokens(b)
  {
    TokensOfNormalized(a);
    TokensOfNormalized(b);
  }

  lemma NormalizationIsIdempotent(text: string)
    ensures Normalized(Normalized(text)) == Normalized(text)
    ensures Tokens(Normalized(text)) == Tokens(text)
  {
    NormalizedIsStripped(text);
    StrippedStays(Normalized(text));
    TokensOfNormalized(text);
    CanonTwice(Lex(Strip(text), false), None, None);
  }

  lemma LexPlainEnd(c: char, gap: bool)
    requires !IsSpace(c) && !IsQuote(c) && !IsMark(c)
    ensures Lex([c], gap) == [Lexeme(gap, Plain(c))]
  {
    assert [c][1..] == "";
  }

  lemma RenderedAfterParenthesis(c: char, gap: bool)
    ensures Render(Canon([Lexeme(false, Mark(')')), Lexeme(gap, Plain(c))], None))
         == [')'] + (if gap then " " else "") + [Lower(c)]
  {
    var close, next := Lexeme(false, Mark(')')), Lexeme(gap, Plain(c));
    var folded := Lexeme(gap, Plain(Lower(c)));
    assert [close, next] == [close] + [next] && [next] == [next] + [];
    CanonCons(close, [next], None);
    CanonCons(next, [], Some(close.atom));
    RenderCons(close, [folded]);
    RenderCons(folded, []);
    assert [folded] + [] == [folded];
  }

  /** White space after a closing parenthesis is not mere presentation: the code keeps one space there. */
  lemma GapAfterParenthesisStays(c: char)
    requires !IsSpace(c) && !IsQuote(c) && !IsMark(c)
    ensures Normalized([')', ' ', c]) == [')', ' ', Lower(c)]
    ensures Normalized([')', c]) == [')', Lower(c)]
  {
    var wide, tight := [')', ' ', c], [')', c];
    StrippedStays(wide);
    StrippedStays(tight);
    assert wide[1..] == [' ', c] && [' ', c][1..] == [c] && tight[1..] == [c];
    LexPlainEnd(c, true);
    LexPlainEnd(c, false);
    LexSpace([' ', c], false);
    RenderedAfterParenthesis(c, true);
    RenderedAfterParenthesis(c, false);
  }
}
