/** The character loop that normalizes the text of a CHECK constraint. */
module SqlText {
  import opened Common
  import opened SqlTokens
  import opened Text

  lemma Associate(a: string, b: string, c: string)
    ensures a + (b + c) == (a + b) + c
  {
  }

  lemma HeadAndTail(text: string, n: nat)
    requires 1 <= n <= |text|
    ensures text[..n] == [text[0]] + text[1..][..n - 1] && text[n..] == text[1..][n - 1..]
  {
  }

  lemma SplitTwice(text: string, n: nat, m: nat)
    requires n <= m <= |text|
    ensures text[..m] == text[..n] + text[n..][..m - n] && text[m..] == text[n..][m - n..]
  {
  }

  /** What the loop still has to emit for `text`. */
  ghost function Pending(text: string, gap: bool, prev: Option<Atom>): string {
    Render(Canon(Lex(text, gap), prev))
  }

  /** What it still has to emit inside a quoted atom. */
  ghost function QuotedPending(text: string, q: char, prev: Option<Atom>): string {
    var m := Remainder(text, q);
    text[..m] + Pending(text[m..], false, prev)
  }

  lemma PendingSpace(text: string, gap: bool, prev: Option<Atom>)
    requires text != "" && IsSpace(text[0])
    ensures Pending(text, gap, prev) == Pending(text[1..], true, prev)
  {
    LexSpace(text, gap);
  }

  lemma PendingAtom(text: string, gap: bool, prev: Option<Atom>)
    requires text != "" && !IsSpace(text[0])
    ensures Pending(text, gap, prev)
         == LexemeText(Lexeme(gap && KeepsGap(prev, FirstAtom(text)), Fold(FirstAtom(text))))
            + Pending(text[|AtomText(FirstAtom(text))|..], false, Some(FirstAtom(text)))
  {
    var a := FirstAtom(text);
    var rest := Lex(text[|AtomText(a)|..], false);
    LexFirst(text, gap);
    CanonCons(Lexeme(gap, a), rest, prev);
    RenderCons(Lexeme(gap && KeepsGap(prev, a), Fold(a)), Canon(rest, Some(a)));
  }

  function Gap(kept: bool): string {
    if kept then " " else ""
  }

  lemma QuoteParts(g: string, q: string, head: string, rest: string)
    ensures (g + (q + head)) + rest == (g + q) + (head + rest)
  {
  }

  lemma QuoteText(kept: bool, text: string, m: nat)
    requires m < |text|
    ensures LexemeText(Lexeme(kept, Quoted(text[..1 + m]))) == Gap(kept) + ([text[0]] + text[1..][..m])
  {
    HeadAndTail(text, 1 + m);
  }

  lemma QuotedRest(text: string, prev: Option<Atom>, m: nat)
    requires text != "" && m == Remainder(text[1..], text[0])
    ensures QuotedPending(text[1..], text[0], prev) == text[1..][..m] + Pending(text[1 + m..], false, prev)
  {
    HeadAndTail(text, 1 + m);
  }

  /** Emitting the opening quote leaves the rest of the quoted atom to emit. */
  lemma PendingQuote(text: string, gap: bool, prev: Option<Atom>)
    requires text != "" && IsQuote(text[0])
    ensures Pending(text, gap, prev)
         == Gap(gap && KeepsGap(prev, FirstAtom(text))) + [text[0]]
            + QuotedPending(text[1..], text[0], Some(FirstAtom(text)))
  {
    var a, m := FirstAtom(text), Remainder(text[1..], text[0]);
    var kept := gap && KeepsGap(prev, a);
    PendingAtom(text, gap, prev);
    QuoteText(kept, text, m);
    QuotedRest(text, Some(a), m);
    QuoteParts(Gap(kept), [text[0]], text[1..][..m], Pending(text[1 + m..], false, Some(a)));
  }

  /** The length of the next piece of a quoted atom. */
  function Piece(text: string, q: char): (n: nat)
    requires text != ""
    ensures 1 <= n <= |text|
  {
    if text[0] == q && |text| > 1 && text[1] == q then 2 else 1
  }

  /** The quote that closes the atom. */
  predicate Closes(text: string, q: char)
    requires text != ""
  {
    text[0] == q && Piece(text, q) == 1
  }

  lemma QuotedStep(text: string, q: char, prev: Option<Atom>)
    requires text != "" && !Closes(text, q)
    ensures QuotedPending(text, q, prev)
         == text[..Piece(text, q)] + QuotedPending(text[Piece(text, q)..], q, prev)
  {
    var n, m := Piece(text, q), Remainder(text, q);
    assert m == n + Remainder(text[n..], q);
    SplitTwice(text, n, m);
    Associate(text[..n], text[n..][..m - n], Pending(text[m..], false, prev));
  }

  /** The last character written tells what the loop asks about the previous atom. */
  ghost predicate Shows(output: string, prev: Option<Atom>) {
    && (output == "" <==> prev.None?)
    && (output != "" ==>
          && output[|output| - 1] != ' '
          && ((output[|output| - 1] == '(' || output[|output| - 1] == ',') <==> Opens(prev.value)))
  }

  /** The loop invariant of `NormalizeSqlText`. */
  ghost predicate Writing(
    value: string, output: string, rest: string, pendingSpace: bool, quote: Option<char>, prev: Option<Atom>)
  {
    match quote
    case None => Shows(output, prev) && output + Pending(rest, pendingSpace, prev) == Normalized(value)
    case Some(q) =>
      && IsQuote(q) && !pendingSpace && prev.Some? && prev.value.Quoted?
      && output != "" && output + QuotedPending(rest, q, prev) == Normalized(value)
  }

  lemma WritingStarts(value: string)
    ensures Writing(value, "", Strip(value), false, None, None)
  {
    assert "" + Pending(Strip(value), false, None) == Normalized(value);
  }

  lemma WritingQuoted(value: string, output: string, rest: string, q: char, prev: Option<Atom>)
    requires Writing(value, output, rest, false, Some(q), prev) && rest != ""
    ensures var n := Piece(rest, q);
            Writing(value, output + rest[..n], rest[n..], false, if Closes(rest, q) then None else Some(q), prev)
  {
    var n := Piece(rest, q);
    if Closes(rest, q) {
      Associate(output, rest[..1], Pending(rest[1..], false, prev));
    } else {
      QuotedStep(rest, q, prev);
      Associate(output, rest[..n], QuotedPending(rest[n..], q, prev));
    }
  }

  lemma WritingSpace(value: string, output: string, rest: string, pendingSpace: bool, prev: Option<Atom>)
    requires Writing(value, output, rest, pendingSpace, None, prev) && rest != "" && IsSpace(rest[0])
    ensures Writing(value, output, rest[1..], true, None, prev)
  {
    PendingSpace(rest, pendingSpace, prev);
  }

  /** The space that the loop writes before an atom that is not a mark. */
  function Spacer(pendingSpace: bool, output: string): string {
    Gap(pendingSpace && output != "" && output[|output| - 1] != '(' && output[|output| - 1] != ',')
  }

  lemma SpacerIsGap(output: string, pendingSpace: bool, prev: Option<Atom>, a: Atom)
    requires Shows(output, prev) && !a.Mark?
    ensures Spacer(pendingSpace, output) == Gap(pendingSpace && KeepsGap(prev, a))
  {
  }

  lemma WritingOpens(value: string, output: string, rest: string, pendingSpace: bool, prev: Option<Atom>)
    requires Writing(value, output, rest, pendingSpace, None, prev) && rest != "" && IsQuote(rest[0])
    ensures Writing(value, output + Spacer(pendingSpace, output) + [rest[0]], rest[1..], false, Some(rest[0]),
                    Some(FirstAtom(rest)))
  {
    PendingQuote(rest, pendingSpace, prev);
    SpacerIsGap(output, pendingSpace, prev, FirstAtom(rest));
    var s, r := Spacer(pendingSpace, output), QuotedPending(rest[1..], rest[0], Some(FirstAtom(rest)));
    Associate(output, s + [rest[0]], r);
    Associate(output, s, [rest[0]]);
  }

  lemma MarkText(c: char)
    ensures LexemeText(Lexeme(false, Mark(c))) == [c]
  {
  }

  lemma WritingMark(value: string, output: string, rest: string, pendingSpace: bool, prev: Option<Atom>)
    requires Writing(value, output, rest, pendingSpace, None, prev) && rest != "" && IsMark(rest[0])
    ensures Writing(value, output + [rest[0]], rest[1..], false, None, Some(Mark(rest[0])))
  {
    PendingAtom(rest, pendingSpace, prev);
    MarkText(rest[0]);
    Associate(output, [rest[0]], Pending(rest[1..], false, Some(Mark(rest[0]))));
  }

  lemma WritingPlain(value: string, output: string, rest: string, pendingSpace: bool, prev: Option<Atom>)
    requires Writing(value, output, rest, pendingSpace, None, prev) && rest != ""
    requires !IsSpace(rest[0]) && !IsQuote(rest[0]) && !IsMark(rest[0])
    ensures Writing(value, output + Spacer(pendingSpace, output) + [Lower(rest[0])], rest[1..], false, None,
                    Some(Plain(rest[0])))
  {
    PendingAtom(rest, pendingSpace, prev);
    SpacerIsGap(output, pendingSpace, prev, Plain(rest[0]));
    var s, c, r := Spacer(pendingSpace, output), [Lower(rest[0])], Pending(rest[1..], false, Some(Plain(rest[0])));
    Associate(output, s + c, r);
    Associate(output, s, c);
    PlainShows(output + s, rest[0]);
  }

  lemma PlainShows(output: string, c: char)
    requires !IsSpace(c) && !IsQuote(c) && !IsMark(c)
    ensures Shows(output + [Lower(c)], Some(Plain(c)))
  {
  }

  lemma PieceAt(text: string, index: nat, q: char, output: string)
    requires index < |text|
    ensures var rest := text[index..];
            var n := Piece(rest, q);
            && n == (if text[index] == q && index + 1 < |text| && text[index + 1] == q then 2 else 1)
            && rest[n..] == text[index + n..]
            && output + rest[..n]
               == if n == 1 then output + [text[index]] else output + [text[index]] + [text[index + 1]]
  {
  }

  method PopSpaces(output: string) returns (result: string, pops: nat)
    ensures result <= output && |result| + pops == |output|
    ensures result != "" ==> result[|result| - 1] != ' '
    ensures forall i :: |result| <= i < |output| ==> output[i] == ' '
  {
    result, pops := output, 0;
    while result != "" && result[|result| - 1] == ' '
      decreases |result|
      invariant result <= output && |result| + pops == |output|
      invariant forall i :: |result| <= i < |output| ==> output[i] == ' '
    {
      result := result[..|result| - 1];
      pops := pops + 1;
    }
  }

  /** `popped` counts the trailing spaces that the loop removes before a mark: there are never any. */
  method NormalizeSqlText(value: string) returns (result: string, popped: nat)
    ensures result == Normalized(value) && popped == 0
  {
    var text := Strip(value);
    var output := "";
    var pendingSpace := false;
    var quote: Option<char> := None;
    var index := 0;
    ghost var prev: Option<Atom> := None;
    popped := 0;
    WritingStarts(value);
    assert text[0..] == text;
    while index < |text|
      invariant index <= |text|
      invariant Writing(value, output, text[index..], pendingSpace, quote, prev)
      invariant popped == 0
    {
      var c := text[index];
      ghost var rest := text[index..];
      assert rest[1..] == text[index + 1..];
      if quote != None {
        WritingQuoted(value, output, rest, quote.value, prev);
        PieceAt(text, index, quote.value, output);
        output := output + [c];
        if c == quote.value {
          if index + 1 < |text| && text[index + 1] == quote.value {
            output := output + [text[index + 1]];
            index := index + 2;
            continue;
          }
          quote := None;
        }
        index := index + 1;
        continue;
      }
      if IsQuote(c) {
        WritingOpens(value, output, rest, pendingSpace, prev);
        output := output + Spacer(pendingSpace, output) + [c];
        pendingSpace, quote, prev := false, Some(c), Some(FirstAtom(rest));
      } else if IsSpace(c) {
        WritingSpace(value, output, rest, pendingSpace, prev);
        pendingSpace := true;
      } else if IsMark(c) {
        WritingMark(value, output, rest, pendingSpace, prev);
        var trimmed, pops := PopSpaces(output);
        assert trimmed == output;
        output, popped := trimmed + [c], popped + pops;
        pendingSpace, prev := false, Some(Mark(c));
      } else {
        WritingPlain(value, output, rest, pendingSpace, prev);
        output := output + Spacer(pendingSpace, output) + [Lower(c)];
        pendingSpace, prev := false, Some(Plain(c));
      }
      index := index + 1;
    }
    assert text[index..] == "";
    WritingEnds(value, output, pendingSpace, quote, prev);
    result := Strip(output);
  }

  lemma WritingEnds(value: string, output: string, pendingSpace: bool, quote: Option<char>, prev: Option<Atom>)
    requires Writing(value, output, "", pendingSpace, quote, prev)
    ensures output == Normalized(value) && Strip(output) == output
  {
    NormalizedIsStripped(value);
    StrippedStays(Normalized(value));
  }
}
