/** What white space around parentheses and commas means to the normaliser. */
module SqlGaps {
  import opened Common
  import opened SqlTokens
  import opened Text

  // ---------- trimming around a visible character ----------

  lemma {:induction false} StripLeftStops(a: string, y: string)
    requires y != "" && !IsSpace(y[0])
    ensures StripLeft(a + y) == StripLeft(a) + y
  {
    if a == "" {
      assert a + y == y;
    } else if IsSpace(a[0]) {
      assert (a + y)[1..] == a[1..] + y;
      StripLeftStops(a[1..], y);
    }
  }

  lemma {:induction false} StripRightStops(s: string, y: string)
    requires y != "" && !IsSpace(y[0])
    ensures StripRight(s + y) == s + StripRight(y)
  {
    if IsSpace(y[|y| - 1]) {
      assert (s + y)[..|s + y| - 1] == s + y[..|y| - 1];
      StripRightStops(s, y[..|y| - 1]);
    }
  }

  lemma StripAround(a: string, c: char, z: string)
    requires !IsSpace(c)
    ensures Strip(a + ([c] + z)) == StripLeft(a) + ([c] + StripRight(z))
  {
    StripLeftStops(a, [c] + z);
    StripRightStops(StripLeft(a), [c] + z);
    StripRightAfter(c, z);
  }

  lemma {:induction false} StripRightAfter(c: char, z: string)
    requires !IsSpace(c)
    ensures StripRight([c] + z) == [c] + StripRight(z)
  {
    if z != "" && IsSpace(z[|z| - 1]) {
      assert ([c] + z)[..|z|] == [c] + z[..|z| - 1];
      StripRightAfter(c, z[..|z| - 1]);
    }
  }

  lemma {:induction false} StripRightPrefix(z: string)
    ensures StripRight(z) <= z && (StripRight(z) == "" <==> Blank(z))
  {
    if z != "" && IsSpace(z[|z| - 1]) {
      StripRightPrefix(z[..|z| - 1]);
      assert z == z[..|z| - 1] + [z[|z| - 1]];
    }
  }

  lemma {:induction false} StripRightOfSpace(b: string)
    ensures StripRight([' '] + b) == if Blank(b) then "" else [' '] + StripRight(b)
  {
    StripRightPrefix(b);
    if b == "" {
      assert [' '] + b == [' '] && [' '][..0] == "";
    } else if IsSpace(b[|b| - 1]) {
      assert ([' '] + b)[..|b|] == [' '] + b[..|b| - 1];
      StripRightOfSpace(b[..|b| - 1]);
      StripRightPrefix(b[..|b| - 1]);
    }
  }

  // ---------- lexing after a prefix ----------

  /** The length of the quoted atom at the head of the text. */
  function QuotedLength(text: string): (n: nat)
    requires text != ""
    ensures 1 <= n <= |text|
  {
    1 + Remainder(text[1..], text[0])
  }

  predicate ClosesQuote(text: string)
    requires text != ""
  {
    Closed(text[1..QuotedLength(text)], text[0])
  }

  /** Where the text opens a quote that it does not close, or its length. */
  function OpenAt(text: string): (n: nat)
    ensures n <= |text|
    decreases |text|
  {
    if text == "" then 0
    else if !IsQuote(text[0]) then 1 + OpenAt(text[1..])
    else if ClosesQuote(text) then QuotedLength(text) + OpenAt(text[QuotedLength(text)..])
    else 0
  }

  /** Every quote that the text opens is closed in it. */
  predicate Balanced(text: string) {
    OpenAt(text) == |text|
  }

  /** The lexemes before the open quote. */
  function Before(text: string, gap: bool): seq<Lexeme>
    decreases |text|
  {
    if text == "" then []
    else if IsSpace(text[0]) then Before(text[1..], true)
    else if IsQuote(text[0]) then
      if ClosesQuote(text) then
        [Lexeme(gap, Quoted(text[..QuotedLength(text)]))] + Before(text[QuotedLength(text)..], false)
      else []
    else [Lexeme(gap, if IsMark(text[0]) then Mark(text[0]) else Plain(text[0]))] + Before(text[1..], false)
  }

  /** Whether white space stands before the open quote, or at the end. */
  function GapAt(text: string, gap: bool): bool
    decreases |text|
  {
    if text == "" then gap
    else if IsSpace(text[0]) then GapAt(text[1..], true)
    else if IsQuote(text[0]) then
      if ClosesQuote(text) then GapAt(text[QuotedLength(text)..], false) else gap
    else GapAt(text[1..], false)
  }

  lemma ClosedQuoteStays(a: string, y: string)
    requires a != "" && IsQuote(a[0]) && ClosesQuote(a) && y != "" && !IsQuote(y[0])
    ensures QuotedLength(a + y) == QuotedLength(a)
  {
    var n, q := QuotedLength(a), a[0];
    RemainderEnds(a[1..], q);
    assert a[1..][..n - 1] == a[1..n];
    assert (a + y)[1..] == a[1..n] + (a[n..] + y);
    RemainderOfClosed(a[1..n], a[n..] + y, q);
  }

  predicate SplitsAround(a: string, y: string, gap: bool) {
    Lex(a + y, gap) == Before(a, gap) + Lex(a[OpenAt(a)..] + y, GapAt(a, gap))
  }

  lemma SplitsPastCharacter(a: string, y: string, gap: bool)
    requires a != "" && !IsQuote(a[0]) && SplitsAround(a[1..], y, IsSpace(a[0]))
    ensures SplitsAround(a, y, gap)
  {
    assert (a + y)[1..] == a[1..] + y;
    assert a[OpenAt(a)..] == a[1..][OpenAt(a[1..])..];
  }

  lemma BeforePastQuote(a: string, gap: bool)
    requires a != "" && IsQuote(a[0]) && ClosesQuote(a)
    ensures var n := QuotedLength(a);
            && Before(a, gap) == [Lexeme(gap, Quoted(a[..n]))] + Before(a[n..], false)
            && GapAt(a, gap) == GapAt(a[n..], false)
            && a[OpenAt(a)..] == a[n..][OpenAt(a[n..])..]
  {
  }

  lemma LexPastQuote(a: string, y: string, gap: bool)
    requires a != "" && IsQuote(a[0]) && QuotedLength(a + y) == QuotedLength(a)
    ensures var n := QuotedLength(a);
            Lex(a + y, gap) == [Lexeme(gap, Quoted(a[..n]))] + Lex(a[n..] + y, false)
  {
    var n := QuotedLength(a);
    assert (a + y)[..n] == a[..n] && (a + y)[n..] == a[n..] + y;
  }

  lemma Regroup(x: seq<Lexeme>, y: seq<Lexeme>, z: seq<Lexeme>)
    ensures (x + y) + z == x + (y + z)
  {
  }

  lemma SplitsPastQuote(a: string, y: string, gap: bool)
    requires a != "" && IsQuote(a[0]) && ClosesQuote(a) && y != "" && !IsQuote(y[0])
    requires SplitsAround(a[QuotedLength(a)..], y, false)
    ensures SplitsAround(a, y, gap)
  {
    var n := QuotedLength(a);
    var l := Lexeme(gap, Quoted(a[..n]));
    ClosedQuoteStays(a, y);
    BeforePastQuote(a, gap);
    LexPastQuote(a, y, gap);
    Regroup([l], Before(a[n..], false), Lex(a[OpenAt(a)..] + y, GapAt(a, gap)));
  }

  /** Lexing splits where the prefix has no open quote. */
  lemma {:induction false} LexAround(a: string, y: string, gap: bool)
    requires y != "" && !IsQuote(y[0])
    ensures SplitsAround(a, y, gap)
    decreases |a|
  {
    if a == "" {
      assert a[0..] + y == a + y;
    } else if !IsQuote(a[0]) {
      LexAround(a[1..], y, IsSpace(a[0]));
      SplitsPastCharacter(a, y, gap);
    } else if ClosesQuote(a) {
      LexAround(a[QuotedLength(a)..], y, false);
      SplitsPastQuote(a, y, gap);
    } else {
      assert a[0..] == a;
    }
  }

  function LastAtom(ls: seq<Lexeme>, prev: Option<Atom>): Option<Atom> {
    if ls == [] then prev else Some(ls[|ls| - 1].atom)
  }

  lemma CanonStep(a: seq<Lexeme>, b: seq<Lexeme>, prev: Option<Atom>)
    requires a != []
    ensures Canon(a + b, prev) == Canon(a, prev)[..1] + Canon(a[1..] + b, Some(a[0].atom))
    ensures Canon(a, prev) == Canon(a, prev)[..1] + Canon(a[1..], Some(a[0].atom))
  {
    assert (a + b)[1..] == a[1..] + b;
  }

  lemma {:induction false} CanonSplit(a: seq<Lexeme>, b: seq<Lexeme>, prev: Option<Atom>)
    ensures Canon(a + b, prev) == Canon(a, prev) + Canon(b, LastAtom(a, prev))
  {
    if a == [] {
      assert a + b == b;
    } else {
      CanonStep(a, b, prev);
      CanonSplit(a[1..], b, Some(a[0].atom));
      assert LastAtom(a[1..], Some(a[0].atom)) == LastAtom(a, prev);
      Regroup(Canon(a, prev)[..1], Canon(a[1..], Some(a[0].atom)), Canon(b, LastAtom(a, prev)));
    }
  }

  lemma {:induction false} CanonLength(a: seq<Lexeme>, prev: Option<Atom>)
    ensures |Canon(a, prev)| == |a|
  {
    if a != [] {
      CanonLength(a[1..], Some(a[0].atom));
    }
  }

  // ---------- a gap outside quotes ----------

  /** The lexemes of what follows a mark, with a gap before them or without one. */
  function After(b: string, gap: bool, c: char): seq<Lexeme> {
    Canon(Lex(b, gap), Some(Mark(c)))
  }

  lemma AfterFirst(b: string, gap: bool, c: char)
    requires b != "" && !IsSpace(b[0]) && IsMark(c)
    ensures After(b, gap, c) != [] && After(b, gap, c)[0].gap == (gap && c == ')' && !IsMark(b[0]))
    ensures After(b, gap, c)[1..] == Canon(Lex(b[|AtomText(FirstAtom(b))|..], false), Some(FirstAtom(b)))
    ensures After(b, gap, c)[0].atom == Fold(FirstAtom(b))
  {
    LexFirst(b, gap);
    var a := FirstAtom(b);
    CanonCons(Lexeme(gap, a), Lex(b[|AtomText(a)|..], false), Some(Mark(c)));
  }

  /** A gap between a mark and `b` is dropped, or there anyway. */
  predicate NoGapAfter(c: char, b: string)
    requires b != ""
  {
    c != ')' || IsSpace(b[0]) || IsMark(b[0])
  }

  /** What follows a mark is read alike with and without a gap exactly if the gap is dropped or there anyway. */
  lemma GapDropped(b: string, c: char)
    requires b != "" && IsMark(c)
    ensures After(b, true, c) == After(b, false, c) <==> NoGapAfter(c, b)
  {
    if IsSpace(b[0]) {
      LexSpace(b, true);
      LexSpace(b, false);
    } else {
      AfterFirst(b, true, c);
      AfterFirst(b, false, c);
      var x, y := After(b, true, c), After(b, false, c);
      assert x == [x[0]] + x[1..] && y == [y[0]] + y[1..];
    }
  }

  lemma LexMark(c: char, z: string, gap: bool)
    requires IsMark(c)
    ensures Lex([c] + z, gap) == [Lexeme(gap, Mark(c))] + Lex(z, false)
  {
    assert ([c] + z)[1..] == z;
  }

  lemma LexGapBefore(y: string)
    ensures Lex([' '] + y, false) == Lex(y, true) && Lex([' '] + y, true) == Lex(y, true)
  {
    assert ([' '] + y)[1..] == y;
  }

  /** The canonical lexemes of a balanced prefix and the mark after it. */
  function Through(s: string, c: char): seq<Lexeme> {
    Canon(Before(s, false), None) + [Lexeme(false, Mark(c))]
  }

  lemma MarkAfterPrefix(s: string, gap: bool, c: char, z: string)
    requires IsMark(c)
    ensures Canon(Before(s, false) + ([Lexeme(gap, Mark(c))] + Lex(z, false)), None)
         == Through(s, c) + After(z, false, c)
  {
    var p, l := Before(s, false), Lexeme(gap, Mark(c));
    CanonSplit(p, [l] + Lex(z, false), None);
    CanonCons(l, Lex(z, false), LastAtom(p, None));
    Regroup(Canon(p, None), [Lexeme(false, Mark(c))], After(z, false, c));
  }

  lemma BalancedTokens(s: string, c: char, z: string)
    requires Balanced(s) && IsMark(c)
    ensures Canon(Lex(s + ([c] + z), false), None) == Through(s, c) + After(z, false, c)
  {
    LexAround(s, [c] + z, false);
    assert s[OpenAt(s)..] + ([c] + z) == [c] + z;
    LexMark(c, z, GapAt(s, false));
    MarkAfterPrefix(s, GapAt(s, false), c, z);
  }

  lemma BalancedTokensApart(s: string, c: char, z: string)
    requires Balanced(s) && IsMark(c)
    ensures Canon(Lex(s + ([' '] + ([c] + z)), false), None) == Through(s, c) + After(z, false, c)
  {
    LexAround(s, [' '] + ([c] + z), false);
    assert s[OpenAt(s)..] + ([' '] + ([c] + z)) == [' '] + ([c] + z);
    LexGapBefore([c] + z);
    LexMark(c, z, true);
    MarkAfterPrefix(s, true, c, z);
  }

  lemma SameTail(p: seq<Lexeme>, x: seq<Lexeme>, y: seq<Lexeme>)
    ensures p + x == p + y <==> x == y
  {
    assert (p + x)[|p|..] == x && (p + y)[|p|..] == y;
  }

  lemma BalancedGap(s: string, c: char, b: string)
    requires Balanced(s) && b != "" && IsMark(c)
    ensures Canon(Lex(s + ([c] + ([' '] + b)), false), None) == Canon(Lex(s + ([c] + b), false), None)
       <==> NoGapAfter(c, b)
  {
    BalancedTokens(s, c, [' '] + b);
    BalancedTokens(s, c, b);
    LexGapBefore(b);
    SameTail(Through(s, c), After(b, true, c), After(b, false, c));
    GapDropped(b, c);
  }

  // ---------- inside an open quote ----------

  lemma {:induction false} OpenTail(text: string)
    requires !Balanced(text)
    ensures var t := text[OpenAt(text)..]; t != "" && IsQuote(t[0]) && Unclosed(t[1..], t[0])
    decreases |text|
  {
    if !IsQuote(text[0]) {
      OpenTail(text[1..]);
      assert text[OpenAt(text)..] == text[1..][OpenAt(text[1..])..];
    } else if ClosesQuote(text) {
      var n := QuotedLength(text);
      OpenTail(text[n..]);
      assert text[OpenAt(text)..] == text[n..][OpenAt(text[n..])..];
    } else {
      var n := QuotedLength(text);
      RemainderEnds(text[1..], text[0]);
      assert text[1..][..n - 1] == text[1..n];
      assert text[0..] == text;
    }
  }

  lemma {:induction false} RemainderPast(body: string, y: string, q: char)
    requires Unclosed(body, q)
    ensures Remainder(body + y, q) == |body| + Remainder(y, q)
  {
    if body == "" {
      assert body + y == y;
    } else if body[0] != q {
      assert (body + y)[1..] == body[1..] + y;
      RemainderPast(body[1..], y, q);
    } else {
      assert (body + y)[2..] == body[2..] + y;
      RemainderPast(body[2..], y, q);
    }
  }

  lemma RemainderSkips(c: char, y: string, q: char)
    requires c != q
    ensures Remainder([c] + y, q) == 1 + Remainder(y, q)
  {
    assert ([c] + y)[1..] == y;
  }

  lemma OpenQuoteLength(t: string, y: string)
    requires t != "" && Unclosed(t[1..], t[0])
    ensures QuotedLength(t + y) == |t| + Remainder(y, t[0])
  {
    assert (t + y)[1..] == t[1..] + y;
    RemainderPast(t[1..], y, t[0]);
  }

  function SizeAt(ls: seq<Lexeme>, i: nat): nat {
    if i < |ls| then |AtomText(ls[i].atom)| else 0
  }

  lemma OpenTokens(s: string, y: string)
    requires !Balanced(s) && y != "" && !IsQuote(y[0]) && s[OpenAt(s)..] + y != ""
    ensures var t := s[OpenAt(s)..] + y;
            SizeAt(Canon(Lex(s + y, false), None), |Before(s, false)|) == QuotedLength(t)
  {
    OpenTail(s);
    LexAround(s, y, false);
    var p, t := Before(s, false), s[OpenAt(s)..] + y;
    assert t[0] == s[OpenAt(s)..][0];
    CanonSplit(p, Lex(t, GapAt(s, false)), None);
    CanonLength(p, None);
  }

  /** Inside an open quote a space and the character after it are one longer than the character. */
  lemma OpenLengthens(t: string, c: char, z: string)
    requires t != "" && IsQuote(t[0]) && Unclosed(t[1..], t[0]) && IsMark(c)
    ensures QuotedLength(t + ([' '] + ([c] + z))) == QuotedLength(t + ([c] + z)) + 1
    ensures QuotedLength(t + ([c] + ([' '] + z))) == QuotedLength(t + ([c] + z)) + 1
  {
    OpenQuoteLength(t, [c] + z);
    OpenQuoteLength(t, [' '] + ([c] + z));
    OpenQuoteLength(t, [c] + ([' '] + z));
    RemainderSkips(' ', [c] + z, t[0]);
    RemainderSkips(c, z, t[0]);
    RemainderSkips(c, [' '] + z, t[0]);
    RemainderSkips(' ', z, t[0]);
  }

  lemma OpenDiffers(s: string, y: string, y': string)
    requires !Balanced(s) && y != "" && !IsQuote(y[0]) && y' != "" && !IsQuote(y'[0])
    requires QuotedLength(s[OpenAt(s)..] + y) != QuotedLength(s[OpenAt(s)..] + y')
    ensures Canon(Lex(s + y, false), None) != Canon(Lex(s + y', false), None)
  {
    OpenTokens(s, y);
    OpenTokens(s, y');
  }

  lemma OpenGap(s: string, c: char, b: string)
    requires !Balanced(s) && IsMark(c)
    ensures Canon(Lex(s + ([c] + ([' '] + b)), false), None) != Canon(Lex(s + ([c] + b), false), None)
    ensures Canon(Lex(s + ([' '] + ([c] + b)), false), None) != Canon(Lex(s + ([c] + b), false), None)
  {
    OpenTail(s);
    OpenLengthens(s[OpenAt(s)..], c, b);
    OpenDiffers(s, [c] + ([' '] + b), [c] + b);
    OpenDiffers(s, [' '] + ([c] + b), [c] + b);
  }

  // ---------- main results ----------

  lemma {:induction false} StripLeftBalanced(a: string)
    ensures Balanced(StripLeft(a)) <==> Balanced(a)
    ensures StripLeft(a + [' ']) == if StripLeft(a) == "" then "" else StripLeft(a) + [' ']
  {
    if a == "" {
      assert a + [' '] == [' '] && [' '][1..] == "";
    } else if IsSpace(a[0]) {
      assert (a + [' '])[1..] == a[1..] + [' '];
      StripLeftBalanced(a[1..]);
    }
  }

  /**
    White space inserted after `(`, `)` or `,` makes no difference exactly if nothing but white space follows, or if it
    stands outside quotes and, after a `)`, before white space or another of the three.
   */
  lemma GapAfterMarkMatters(a: string, c: char, b: string)
    requires IsMark(c)
    ensures Normalized(a + ([c] + ([' '] + b))) == Normalized(a + ([c] + b))
       <==> Blank(b) || (Balanced(a) && NoGapAfter(c, b))
  {
    NormalFormDecidesTokens(a + ([c] + ([' '] + b)), a + ([c] + b));
    StripAround(a, c, [' '] + b);
    StripAround(a, c, b);
    StripRightOfSpace(b);
    StripRightPrefix(b);
    if !Blank(b) {
      var s, b0 := StripLeft(a), StripRight(b);
      assert b0[0] == b[0];
      StripLeftBalanced(a);
      if Balanced(a) {
        BalancedGap(s, c, b0);
      } else {
        OpenGap(s, c, b0);
      }
    }
  }

  lemma SpaceRegroups(s: string, y: string)
    ensures s + [' '] + y == s + ([' '] + y) && "" + y == y
  {
  }

  lemma BalancedGapBefore(s: string, c: char, b: string)
    requires IsMark(c)
    ensures Canon(Lex(s + [' '] + ([c] + b), false), None) == Canon(Lex(s + ([c] + b), false), None) <==> Balanced(s)
  {
    SpaceRegroups(s, [c] + b);
    if Balanced(s) {
      BalancedTokens(s, c, b);
      BalancedTokensApart(s, c, b);
    } else {
      OpenGap(s, c, b);
    }
  }

  /** White space inserted before `(`, `)` or `,` makes no difference exactly if it stands outside quotes. */
  lemma GapBeforeMarkMatters(a: string, c: char, b: string)
    requires IsMark(c)
    ensures Normalized(a + [' '] + ([c] + b)) == Normalized(a + ([c] + b)) <==> Balanced(a)
  {
    NormalFormDecidesTokens(a + [' '] + ([c] + b), a + ([c] + b));
    StripAround(a + [' '], c, b);
    StripAround(a, c, b);
    StripLeftBalanced(a);
    BalancedGapBefore(StripLeft(a), c, StripRight(b));
  }
}
