/** Ascending listings of texts. */
module Sorting {

  /** Texts are ordered by code points, and a text comes after its prefixes. */
  predicate AtMost(a: string, b: string) {
    a == "" || (b != "" && (a[0] < b[0] || (a[0] == b[0] && AtMost(a[1..], b[1..]))))
  }

  lemma {:induction false} AtMostIsTotal(a: string, b: string)
    ensures AtMost(a, b) || AtMost(b, a)
  {
    if a != "" && b != "" && a[0] == b[0] {
      AtMostIsTotal(a[1..], b[1..]);
    }
  }

  lemma {:induction false} AtMostIsTransitive(a: string, b: string, c: string)
    requires AtMost(a, b) && AtMost(b, c)
    ensures AtMost(a, c)
  {
    if a != "" && a[0] == b[0] == c[0] {
      AtMostIsTransitive(a[1..], b[1..], c[1..]);
    }
  }

  lemma {:induction false} AtMostIsAntisymmetric(a: string, b: string)
    requires AtMost(a, b) && AtMost(b, a)
    ensures a == b
  {
    if a != "" {
      AtMostIsAntisymmetric(a[1..], b[1..]);
      assert a == [a[0]] + a[1..] && b == [b[0]] + b[1..];
    }
  }

  ghost predicate Ascending(texts: seq<string>) {
    forall i, j :: 0 <= i < j < |texts| ==> AtMost(texts[i], texts[j])
  }

  /** The text, before the first one that is not below it. */
  function Insert(x: string, texts: seq<string>): (r: seq<string>)
    ensures multiset(r) == multiset(texts) + multiset{x}
  {
    if texts == [] then [x]
    else if AtMost(x, texts[0]) then [x] + texts
    else
      assert texts == [texts[0]] + texts[1..];
      [texts[0]] + Insert(x, texts[1..])
  }

  lemma AscendingCons(x: string, texts: seq<string>)
    requires Ascending(texts) && forall y :: y in texts ==> AtMost(x, y)
    ensures Ascending([x] + texts)
  {
    var r := [x] + texts;
    forall i, j | 0 <= i < j < |r| ensures AtMost(r[i], r[j]) {
      assert r[j] == texts[j - 1] && r[j] in texts;
    }
  }

  lemma {:induction false} InsertKeepsAscending(x: string, texts: seq<string>)
    requires Ascending(texts)
    ensures Ascending(Insert(x, texts))
  {
    if texts == [] {
    } else if AtMost(x, texts[0]) {
      forall y | y in texts ensures AtMost(x, y) {
        var i :| 0 <= i < |texts| && texts[i] == y;
        if i > 0 {
          AtMostIsTransitive(x, texts[0], y);
        }
      }
      AscendingCons(x, texts);
    } else {
      InsertKeepsAscending(x, texts[1..]);
      AtMostIsTotal(x, texts[0]);
      var rest := Insert(x, texts[1..]);
      forall y | y in rest ensures AtMost(texts[0], y) {
        assert y in multiset(texts[1..]) + multiset{x};
        if y != x {
          assert y in texts[1..];
        }
      }
      AscendingCons(texts[0], rest);
    }
  }

  /** The elements in ascending order, each as often as it is counted. */
  method SortedElements(counter: multiset<string>) returns (listing: seq<string>)
    ensures multiset(listing) == counter && Ascending(listing)
  {
    listing := [];
    var rest := counter;
    while rest != multiset{}
      invariant multiset(listing) + rest == counter && Ascending(listing)
      decreases |rest|
    {
      var x :| x in rest;
      InsertKeepsAscending(x, listing);
      listing := Insert(x, listing);
      rest := rest - multiset{x};
    }
  }

  lemma SameFirst(a: seq<string>, b: seq<string>)
    requires multiset(a) == multiset(b) && Ascending(a) && Ascending(b) && a != [] && b != []
    ensures a[0] == b[0]
  {
    assert a[0] in multiset(b) && b[0] in multiset(a);
    var i :| 0 <= i < |b| && b[i] == a[0];
    var j :| 0 <= j < |a| && a[j] == b[0];
    if i > 0 && j > 0 {
      AtMostIsAntisymmetric(a[0], b[0]);
    }
  }

  lemma WithoutFirst(a: seq<string>)
    requires a != []
    ensures multiset(a[1..]) == multiset(a) - multiset{a[0]}
  {
    assert a == [a[0]] + a[1..];
  }

  /** No two listings of the same elements are ascending. */
  lemma {:induction false} AscendingIsUnique(a: seq<string>, b: seq<string>)
    requires multiset(a) == multiset(b) && Ascending(a) && Ascending(b)
    ensures a == b
  {
    assert |multiset(a)| == |a| && |multiset(b)| == |b|;
    if a != [] {
      SameFirst(a, b);
      WithoutFirst(a);
      WithoutFirst(b);
      AscendingIsUnique(a[1..], b[1..]);
      assert a == [a[0]] + a[1..] && b == [b[0]] + b[1..];
    }
  }

  /** The texts agree before `i`, and there the first one ends or has the smaller character. */
  ghost predicate ComesFirstAt(a: string, b: string, i: nat) {
    && i <= |a| && i <= |b| && a[..i] == b[..i]
    && (i == |a| || (i < |b| && a[i] < b[i]))
  }

  /** The order is that of a dictionary over code points. */
  lemma {:induction false} AtMostIsLexicographic(a: string, b: string)
    ensures AtMost(a, b) <==> exists i: nat :: ComesFirstAt(a, b, i)
  {
    if a == "" {
      assert ComesFirstAt(a, b, 0);
    } else if b != "" {
      AtMostIsLexicographic(a[1..], b[1..]);
      if a[0] < b[0] {
        assert ComesFirstAt(a, b, 0);
      } else if a[0] == b[0] && AtMost(a[1..], b[1..]) {
        var i: nat :| ComesFirstAt(a[1..], b[1..], i);
        assert a[..i + 1] == [a[0]] + a[1..][..i] && b[..i + 1] == [b[0]] + b[1..][..i];
        assert ComesFirstAt(a, b, i + 1);
      }
      if i: nat :| ComesFirstAt(a, b, i) {
        if i > 0 {
          assert a[0] == a[..i][0] == b[..i][0] == b[0];
          assert a[1..][..i - 1] == a[..i][1..] && b[1..][..i - 1] == b[..i][1..];
          assert ComesFirstAt(a[1..], b[1..], i - 1);
        }
      }
    }
  }
}
