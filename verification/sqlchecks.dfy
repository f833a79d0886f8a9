/** Comparing the CHECK constraints of a database with those of a reference, as multisets of normal forms. */
module SqlChecks {
  import opened Sorting
  import opened SqlTokens
  import opened SqlText

  /** A table of the model, with the CHECK texts that the two inspectors reflect for it. */
  datatype Table = Table(name: string, hasModelChecks: bool, actual: seq<string>, reference: seq<string>)

  datatype Mismatch = Mismatch(
    table: string, missing: seq<string>, unexpected: seq<string>, actualCount: nat, referenceCount: nat)

  datatype Comparison = Comparison(tablesChecked: nat, expectedCount: nat, mismatches: seq<Mismatch>, ok: bool)

  /** How many of the texts have these canonical lexemes. */
  ghost function CountOf(texts: seq<string>, ts: seq<Lexeme>): nat {
    if texts == [] then 0
    else CountOf(texts[..|texts| - 1], ts) + if Tokens(texts[|texts| - 1]) == ts then 1 else 0
  }

  ghost function NormalForms(texts: seq<string>): multiset<string> {
    if texts == [] then multiset{}
    else NormalForms(texts[..|texts| - 1]) + multiset{Normalized(texts[|texts| - 1])}
  }

  method Signatures(texts: seq<string>) returns (counter: multiset<string>)
    ensures counter == NormalForms(texts)
  {
    counter := multiset{};
    for i := 0 to |texts|
      invariant counter == NormalForms(texts[..i])
    {
      var text, popped := NormalizeSqlText(texts[i]);
      assert texts[..i + 1][..i] == texts[..i];
      counter := counter + multiset{text};
    }
    assert texts[..|texts|] == texts;
  }

  /** A normal form is counted as often as texts with its lexemes occur. */
  lemma {:induction false} NormalFormsCountTokens(texts: seq<string>, text: string)
    ensures NormalForms(texts)[Normalized(text)] == CountOf(texts, Tokens(text))
  {
    if texts != [] {
      NormalFormsCountTokens(texts[..|texts| - 1], text);
      NormalFormDecidesTokens(texts[|texts| - 1], text);
    }
  }

  lemma {:induction false} OnlyNormalForms(texts: seq<string>, x: string)
    requires x in NormalForms(texts)
    ensures exists text :: text in texts && x == Normalized(text)
  {
    var last := texts[|texts| - 1];
    if x == Normalized(last) {
      assert last in texts;
    } else {
      OnlyNormalForms(texts[..|texts| - 1], x);
    }
  }

  lemma {:induction false} OnlyTokensOfTexts(texts: seq<string>, ts: seq<Lexeme>)
    requires CountOf(texts, ts) > 0
    ensures exists text :: text in texts && ts == Tokens(text)
  {
    var last := texts[|texts| - 1];
    if ts == Tokens(last) {
      assert last in texts;
    } else {
      OnlyTokensOfTexts(texts[..|texts| - 1], ts);
    }
  }

  /** The two sides hold the same checks, each equally often. */
  ghost predicate SameChecks(actual: seq<string>, reference: seq<string>) {
    forall ts :: CountOf(actual, ts) == CountOf(reference, ts)
  }

  /** The counters agree exactly when the checks do. */
  lemma CountersDecide(actual: seq<string>, reference: seq<string>)
    ensures NormalForms(actual) == NormalForms(reference) <==> SameChecks(actual, reference)
  {
    if NormalForms(actual) == NormalForms(reference) {
      forall ts ensures CountOf(actual, ts) == CountOf(reference, ts) {
        if CountOf(actual, ts) > 0 {
          OnlyTokensOfTexts(actual, ts);
        } else if CountOf(reference, ts) > 0 {
          OnlyTokensOfTexts(reference, ts);
        }
        if text :| (text in actual || text in reference) && ts == Tokens(text) {
          NormalFormsCountTokens(actual, text);
          NormalFormsCountTokens(reference, text);
        }
      }
    }
    if SameChecks(actual, reference) {
      forall x ensures NormalForms(actual)[x] == NormalForms(reference)[x] {
        if x in NormalForms(actual) {
          OnlyNormalForms(actual, x);
        } else if x in NormalForms(reference) {
          OnlyNormalForms(reference, x);
        }
        if text :| (text in actual || text in reference) && x == Normalized(text) {
          NormalFormsCountTokens(actual, text);
          NormalFormsCountTokens(reference, text);
        }
      }
    }
  }

  function Excess(a: nat, b: nat): nat {
    if a > b then a - b else 0
  }

  /** The listing names each check by which `more` exceeds `less`, as often as it does, and nothing else. */
  ghost predicate Lists(listing: seq<string>, more: seq<string>, less: seq<string>) {
    && Ascending(listing)
    && (forall text ::
          multiset(listing)[Normalized(text)] == Excess(CountOf(more, Tokens(text)), CountOf(less, Tokens(text))))
    && (forall x :: x in listing ==> exists text :: text in more && x == Normalized(text))
  }

  /** The entry names its table, and lists every check by which the sides differ. */
  ghost predicate Explains(m: Mismatch, t: Table) {
    && m.table == t.name && m.actualCount == |t.actual| && m.referenceCount == |t.reference|
    && Lists(m.missing, t.reference, t.actual) && Lists(m.unexpected, t.actual, t.reference)
  }

  lemma DifferenceIsListed(listing: seq<string>, more: seq<string>, less: seq<string>)
    requires Ascending(listing) && multiset(listing) == NormalForms(more) - NormalForms(less)
    ensures Lists(listing, more, less)
  {
    forall text
      ensures multiset(listing)[Normalized(text)] == Excess(CountOf(more, Tokens(text)), CountOf(less, Tokens(text)))
    {
      NormalFormsCountTokens(more, text);
      NormalFormsCountTokens(less, text);
    }
    forall x | x in listing ensures exists text :: text in more && x == Normalized(text) {
      assert x in multiset(listing);
      OnlyNormalForms(more, x);
    }
  }

  /** No two listings name the same excess. */
  lemma ListingIsDetermined(a: seq<string>, b: seq<string>, more: seq<string>, less: seq<string>)
    requires Lists(a, more, less) && Lists(b, more, less)
    ensures a == b
  {
    forall x ensures multiset(a)[x] == multiset(b)[x] {
      if x in a || x in b {
        var text :| text in more && x == Normalized(text);
        assert multiset(a)[Normalized(text)] == multiset(b)[Normalized(text)];
      }
    }
    AscendingIsUnique(a, b);
  }

  method ListDifferences(t: Table, actual: multiset<string>, reference: multiset<string>) returns (m: Mismatch)
    requires actual == NormalForms(t.actual) && reference == NormalForms(t.reference)
    ensures Explains(m, t)
  {
    var missing := SortedElements(reference - actual);
    var unexpected := SortedElements(actual - reference);
    DifferenceIsListed(missing, t.reference, t.actual);
    DifferenceIsListed(unexpected, t.actual, t.reference);
    NormalFormsSize(t.reference);
    NormalFormsSize(t.actual);
    m := Mismatch(t.name, missing, unexpected, |actual|, |reference|);
  }

  /** The checked tables whose two sides differ, in order. */
  ghost function Differing(tables: seq<Table>): seq<Table> {
    if tables == [] then []
    else
      var last := tables[|tables| - 1];
      var rest := Differing(tables[..|tables| - 1]);
      if last.hasModelChecks && !SameChecks(last.actual, last.reference) then rest + [last] else rest
  }

  ghost function Expected(tables: seq<Table>): nat {
    if tables == [] then 0
    else
      var last := tables[|tables| - 1];
      Expected(tables[..|tables| - 1]) + if last.hasModelChecks then |last.reference| else 0
  }

  ghost function CheckedCount(tables: seq<Table>): nat {
    if tables == [] then 0
    else CheckedCount(tables[..|tables| - 1]) + if tables[|tables| - 1].hasModelChecks then 1 else 0
  }

  lemma {:induction false} NormalFormsSize(texts: seq<string>)
    ensures |NormalForms(texts)| == |texts|
  {
    if texts != [] {
      NormalFormsSize(texts[..|texts| - 1]);
    }
  }

  ghost predicate Report(ms: seq<Mismatch>, ts: seq<Table>) {
    |ms| == |ts| && forall i :: 0 <= i < |ms| ==> Explains(ms[i], ts[i])
  }

  lemma NextTable(tables: seq<Table>, i: nat)
    requires i < |tables|
    ensures Differing(tables[..i + 1])
         == Differing(tables[..i])
            + if tables[i].hasModelChecks && !SameChecks(tables[i].actual, tables[i].reference) then [tables[i]] else []
    ensures Expected(tables[..i + 1])
         == Expected(tables[..i]) + if tables[i].hasModelChecks then |tables[i].reference| else 0
    ensures CheckedCount(tables[..i + 1]) == CheckedCount(tables[..i]) + if tables[i].hasModelChecks then 1 else 0
  {
    assert tables[..i + 1][..i] == tables[..i];
  }

  lemma ReportNext(ms: seq<Mismatch>, ts: seq<Table>, m: Mismatch, t: Table)
    requires Report(ms, ts) && Explains(m, t)
    ensures Report(ms + [m], ts + [t])
  {
  }

  /** One mismatch for each checked table whose sides differ, and ok exactly when there is none. */
  method CompareReflectedChecks(tables: seq<Table>) returns (r: Comparison)
    ensures Report(r.mismatches, Differing(tables))
    ensures r.ok <==> forall t :: t in tables && t.hasModelChecks ==> SameChecks(t.actual, t.reference)
    ensures r.expectedCount == Expected(tables) && r.tablesChecked == CheckedCount(tables)
  {
    var mismatches: seq<Mismatch> := [];
    var checked, expected := 0, 0;
    for i := 0 to |tables|
      invariant Report(mismatches, Differing(tables[..i]))
      invariant expected == Expected(tables[..i]) && checked == CheckedCount(tables[..i])
    {
      var t := tables[i];
      NextTable(tables, i);
      if t.hasModelChecks {
        checked := checked + 1;
        var actual := Signatures(t.actual);
        var reference := Signatures(t.reference);
        NormalFormsSize(t.reference);
        CountersDecide(t.actual, t.reference);
        expected := expected + |reference|;
        if actual != reference {
          var mismatch := ListDifferences(t, actual, reference);
          ReportNext(mismatches, Differing(tables[..i]), mismatch, t);
          mismatches := mismatches + [mismatch];
        }
      }
    }
    assert tables[..|tables|] == tables;
    NoneDiffering(tables);
    r := Comparison(checked, expected, mismatches, mismatches == []);
  }

  lemma {:induction false} NoneDiffering(tables: seq<Table>)
    ensures Differing(tables) == []
       <==> forall t :: t in tables && t.hasModelChecks ==> SameChecks(t.actual, t.reference)
  {
    if tables != [] {
      var front, last := tables[..|tables| - 1], tables[|tables| - 1];
      NoneDiffering(front);
      assert tables == front + [last];
    }
  }
}
