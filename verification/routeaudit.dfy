/** The audit of served routes and of declared operation ids. */
module RouteAudit {
  import opened Sorting
  import opened Text

  /** A yielded route. */
  datatype Endpoint = Endpoint(path: string, methods: set<string>)

  /** An entry of a path item in the schema: an operation, whose id may be empty, or some other value. */
  datatype Entry = Operation(verb: string, operationId: string) | NoOperation(verb: string)

  datatype PathItem = PathItem(entries: seq<Entry>) | NoPathItem

  type Pair = (string, string)

  datatype Item = Item(key: string, count: nat)

  datatype AuditReport = AuditReport(
    routePairCount: nat, operationIdCount: nat, duplicateRoutes: seq<Item>, duplicateOperationIds: seq<Item>,
    ok: bool)

  // ---------- what is counted ----------

  predicate Audited(m: string) {
    m != "HEAD" && m != "OPTIONS"
  }

  ghost function PairsOf(e: Endpoint): multiset<Pair> {
    multiset(set m | m in e.methods && Audited(m) :: (m, e.path))
  }

  ghost function AllPairs(endpoints: seq<Endpoint>): multiset<Pair> {
    if endpoints == [] then multiset{}
    else AllPairs(endpoints[..|endpoints| - 1]) + PairsOf(endpoints[|endpoints| - 1])
  }

  /** How many of the routes serve the method on the path. */
  ghost function Serving(endpoints: seq<Endpoint>, m: string, path: string): nat {
    if endpoints == [] then 0
    else
      var e := endpoints[|endpoints| - 1];
      Serving(endpoints[..|endpoints| - 1], m, path) + if e.path == path && m in e.methods then 1 else 0
  }

  lemma {:induction false} AllPairsCount(endpoints: seq<Endpoint>, m: string, p: string)
    ensures AllPairs(endpoints)[(m, p)] == if m == "HEAD" || m == "OPTIONS" then 0 else Serving(endpoints, m, p)
  {
    if endpoints != [] {
      AllPairsCount(endpoints[..|endpoints| - 1], m, p);
    }
  }

  const VERBS: set<string> := {"get", "post", "put", "patch", "delete", "head", "options"}

  predicate Declares(entry: Entry) {
    LowerAll(entry.verb) in VERBS && entry.Operation? && entry.operationId != ""
  }

  /** The seven methods whose operations are read, in whatever case the schema writes them. */
  predicate IsVerb(v: string) {
    v == "get" || v == "post" || v == "put" || v == "patch" || v == "delete" || v == "head" || v == "options"
  }

  lemma VerbHasNoCapital(v: string)
    requires IsVerb(v)
    ensures forall i :: 0 <= i < |v| ==> v[i] !in CAPITALS
  {
    forall i | 0 <= i < |v| ensures v[i] !in CAPITALS {
      LowerIs(v[i]);
      assert 'a' <= v[i] <= 'z';
    }
  }

  /** An id is declared by an operation with a non-empty id under one of these methods. */
  lemma DeclaresExactly(entry: Entry)
    ensures Declares(entry) <==>
            && entry.Operation? && entry.operationId != ""
            && exists v :: IsVerb(v) && SameButCase(entry.verb, v)
  {
    forall v | IsVerb(v) ensures LowerAll(entry.verb) == v <==> SameButCase(entry.verb, v) {
      VerbHasNoCapital(v);
      LowerAllIs(entry.verb, v);
    }
    if LowerAll(entry.verb) in VERBS {
      assert IsVerb(LowerAll(entry.verb));
    }
  }

  ghost function IdsIn(entries: seq<Entry>): multiset<string> {
    if entries == [] then multiset{}
    else
      var last := entries[|entries| - 1];
      IdsIn(entries[..|entries| - 1]) + if Declares(last) then multiset{last.operationId} else multiset{}
  }

  /** The operation ids of the schema, each as often as it is declared. */
  ghost function AllIds(items: seq<PathItem>): multiset<string> {
    if items == [] then multiset{}
    else
      var last := items[|items| - 1];
      AllIds(items[..|items| - 1]) + if last.PathItem? then IdsIn(last.entries) else multiset{}
  }

  // ---------- the collecting loops ----------

  /** The audited ones of the listed methods on the path, in order. */
  function Served(methods: seq<string>, path: string): seq<Pair> {
    if methods == [] then []
    else
      var m := methods[|methods| - 1];
      Served(methods[..|methods| - 1], path) + if Audited(m) then [(m, path)] else []
  }

  /** The pairs of one route, by its sorted methods. */
  ghost predicate OwnPairs(own: seq<Pair>, e: Endpoint) {
    exists methods :: Ascending(methods) && multiset(methods) == multiset(e.methods) && own == Served(methods, e.path)
  }

  lemma OwnPairsAreDetermined(a: seq<Pair>, b: seq<Pair>, e: Endpoint)
    requires OwnPairs(a, e) && OwnPairs(b, e)
    ensures a == b
  {
    var m :| Ascending(m) && multiset(m) == multiset(e.methods) && a == Served(m, e.path);
    var n :| Ascending(n) && multiset(n) == multiset(e.methods) && b == Served(n, e.path);
    AscendingIsUnique(m, n);
  }

  /** The pairs in the order of the routes and, on each route, of the sorted methods. */
  ghost predicate InOrder(pairs: seq<Pair>, endpoints: seq<Endpoint>)
    decreases |endpoints|
  {
    if endpoints == [] then pairs == []
    else
      exists front, own ::
        && InOrder(front, endpoints[..|endpoints| - 1]) && OwnPairs(own, endpoints[|endpoints| - 1])
        && pairs == front + own
  }

  /** There is only one such order. */
  lemma {:induction false} OrderIsDetermined(a: seq<Pair>, b: seq<Pair>, endpoints: seq<Endpoint>)
    requires InOrder(a, endpoints) && InOrder(b, endpoints)
    ensures a == b
    decreases |endpoints|
  {
    if endpoints != [] {
      var rest, e := endpoints[..|endpoints| - 1], endpoints[|endpoints| - 1];
      var front, own :| InOrder(front, rest) && OwnPairs(own, e) && a == front + own;
      var front', own' :| InOrder(front', rest) && OwnPairs(own', e) && b == front' + own';
      OrderIsDetermined(front, front', rest);
      OwnPairsAreDetermined(own, own', e);
    }
  }

  lemma {:induction false} ServedCount(methods: seq<string>, path: string, m: string, p: string)
    ensures multiset(Served(methods, path))[(m, p)] == if p == path && Audited(m) then multiset(methods)[m] else 0
  {
    if methods != [] {
      ServedCount(methods[..|methods| - 1], path, m, p);
      assert methods == methods[..|methods| - 1] + [methods[|methods| - 1]];
    }
  }

  lemma OwnPairsCount(own: seq<Pair>, e: Endpoint)
    requires OwnPairs(own, e)
    ensures multiset(own) == PairsOf(e)
  {
    var methods :| Ascending(methods) && multiset(methods) == multiset(e.methods) && own == Served(methods, e.path);
    forall pair: Pair ensures multiset(own)[pair] == PairsOf(e)[pair] {
      ServedCount(methods, e.path, pair.0, pair.1);
    }
  }

  lemma {:induction false} OrderedCounts(pairs: seq<Pair>, endpoints: seq<Endpoint>)
    requires InOrder(pairs, endpoints)
    ensures multiset(pairs) == AllPairs(endpoints)
    decreases |endpoints|
  {
    if endpoints != [] {
      var rest, e := endpoints[..|endpoints| - 1], endpoints[|endpoints| - 1];
      var front, own :| InOrder(front, rest) && OwnPairs(own, e) && pairs == front + own;
      OrderedCounts(front, rest);
      OwnPairsCount(own, e);
    }
  }

  method CollectOwn(e: Endpoint) returns (own: seq<Pair>)
    ensures OwnPairs(own, e)
  {
    var methods := SortedElements(multiset(e.methods));
    own := [];
    for j := 0 to |methods|
      invariant own == Served(methods[..j], e.path)
    {
      assert methods[..j + 1][..j] == methods[..j];
      if methods[j] != "HEAD" && methods[j] != "OPTIONS" {
        own := own + [(methods[j], e.path)];
      }
    }
    assert methods[..|methods|] == methods;
  }

  method CollectPairs(endpoints: seq<Endpoint>) returns (pairs: seq<Pair>)
    ensures InOrder(pairs, endpoints)
  {
    pairs := [];
    for i := 0 to |endpoints|
      invariant InOrder(pairs, endpoints[..i])
    {
      var own := CollectOwn(endpoints[i]);
      assert endpoints[..i + 1][..i] == endpoints[..i];
      pairs := pairs + own;
    }
    assert endpoints[..|endpoints|] == endpoints;
  }

  method CollectEntries(entries: seq<Entry>) returns (ids: seq<string>)
    ensures multiset(ids) == IdsIn(entries)
  {
    ids := [];
    for j := 0 to |entries|
      invariant multiset(ids) == IdsIn(entries[..j])
    {
      assert entries[..j + 1][..j] == entries[..j];
      if Declares(entries[j]) {
        ids := ids + [entries[j].operationId];
      }
    }
    assert entries[..|entries|] == entries;
  }

  method CollectIds(items: seq<PathItem>) returns (ids: seq<string>)
    ensures multiset(ids) == AllIds(items)
  {
    ids := [];
    for i := 0 to |items|
      invariant multiset(ids) == AllIds(items[..i])
    {
      assert items[..i + 1][..i] == items[..i];
      if items[i].PathItem? {
        var own := CollectEntries(items[i].entries);
        ids := ids + own;
      }
    }
    assert items[..|items|] == items;
  }

  // ---------- the duplicates ----------

  function RouteLabel(pair: Pair): string {
    pair.0 + " " + pair.1
  }

  /**
    The dictionary of the pairs served twice, filled in the order in which they first occur: of pairs with one label
    the last one gives the count.
   */
  function Labelled(pairs: seq<Pair>, counts: multiset<Pair>): map<string, nat> {
    if pairs == [] then map[]
    else
      var front, pair := pairs[..|pairs| - 1], pairs[|pairs| - 1];
      if pair !in front && counts[pair] > 1 then Labelled(front, counts)[RouteLabel(pair) := counts[pair]]
      else Labelled(front, counts)
  }

  /** There is an entry for each pair counted twice, and no other; pairs with one label share an entry. */
  ghost predicate NamesRoutes(duplicates: map<string, nat>, counts: multiset<Pair>) {
    && (forall pair :: counts[pair] > 1 ==> RouteLabel(pair) in duplicates)
    && (forall key :: key in duplicates ==>
                        exists pair :: RouteLabel(pair) == key && counts[pair] == duplicates[key] > 1)
  }

  lemma {:induction false} LabelsOccur(pairs: seq<Pair>, counts: multiset<Pair>)
    ensures var d := Labelled(pairs, counts);
            && (forall pair :: pair in pairs && counts[pair] > 1 ==> RouteLabel(pair) in d)
            && (forall key :: key in d ==> exists pair :: RouteLabel(pair) == key && counts[pair] == d[key] > 1)
  {
    if pairs != [] {
      var front, last := pairs[..|pairs| - 1], pairs[|pairs| - 1];
      LabelsOccur(front, counts);
      assert pairs == front + [last];
    }
  }

  /** The pair is served twice, and the i-th place is the first where it stands. */
  predicate Repeated(pairs: seq<Pair>, counts: multiset<Pair>, i: nat)
    requires i < |pairs|
  {
    pairs[i] !in pairs[..i] && counts[pairs[i]] > 1
  }

  /** Of the pairs with one label the one that first occurs last gives the count. */
  lemma {:induction false} LastLabelWins(pairs: seq<Pair>, counts: multiset<Pair>, i: nat)
    requires i < |pairs| && Repeated(pairs, counts, i)
    requires forall j :: i < j < |pairs| && Repeated(pairs, counts, j) ==> RouteLabel(pairs[j]) != RouteLabel(pairs[i])
    ensures var d := Labelled(pairs, counts);
            RouteLabel(pairs[i]) in d && d[RouteLabel(pairs[i])] == counts[pairs[i]]
  {
    var front := pairs[..|pairs| - 1];
    if i < |front| {
      assert front[..i] == pairs[..i];
      forall j | i < j < |front| && Repeated(front, counts, j) ensures RouteLabel(front[j]) != RouteLabel(front[i]) {
        assert front[..j] == pairs[..j];
        assert Repeated(pairs, counts, j);
      }
      LastLabelWins(front, counts, i);
      assert pairs[..|pairs| - 1] == front;
    }
  }

  lemma LabelledNames(pairs: seq<Pair>)
    ensures NamesRoutes(Labelled(pairs, multiset(pairs)), multiset(pairs))
  {
    LabelsOccur(pairs, multiset(pairs));
    forall pair | multiset(pairs)[pair] > 1 ensures pair in pairs {
      assert pair in multiset(pairs);
    }
  }

  /** The dictionary holds the counts of the ids declared twice. */
  ghost predicate NamesIds(duplicates: map<string, nat>, counts: multiset<string>) {
    && (forall id :: counts[id] > 1 <==> id in duplicates)
    && (forall id :: id in duplicates ==> duplicates[id] == counts[id])
  }

  method RouteDuplicates(pairs: seq<Pair>) returns (duplicates: map<string, nat>)
    ensures duplicates == Labelled(pairs, multiset(pairs))
  {
    var counts := multiset(pairs);
    duplicates := map[];
    for i := 0 to |pairs|
      invariant duplicates == Labelled(pairs[..i], counts)
    {
      assert pairs[..i + 1][..i] == pairs[..i];
      if pairs[i] !in pairs[..i] && counts[pairs[i]] > 1 {
        duplicates := duplicates[RouteLabel(pairs[i]) := counts[pairs[i]]];
      }
    }
    assert pairs[..|pairs|] == pairs;
  }

  method IdDuplicates(ids: seq<string>) returns (duplicates: map<string, nat>)
    ensures NamesIds(duplicates, multiset(ids))
  {
    var counts := multiset(ids);
    duplicates := map id | id in ids && counts[id] > 1 :: counts[id];
    forall id | counts[id] > 1 ensures id in duplicates {
      assert id in ids;
    }
  }

  /** The entries of the dictionary, each once, in ascending order of their keys. */
  ghost predicate Itemizes(items: seq<Item>, dictionary: map<string, nat>) {
    && (forall i, j :: 0 <= i < j < |items| ==> AtMost(items[i].key, items[j].key) && items[i].key != items[j].key)
    && (forall i :: 0 <= i < |items| ==> items[i].key in dictionary && dictionary[items[i].key] == items[i].count)
    && (forall key :: key in dictionary ==> exists i :: 0 <= i < |items| && items[i].key == key)
  }

  lemma EachOnce(listing: seq<string>, keys: set<string>)
    requires multiset(listing) == multiset(keys)
    ensures forall i, j :: 0 <= i < j < |listing| ==> listing[i] != listing[j]
  {
    forall i, j | 0 <= i < j < |listing| ensures listing[i] != listing[j] {
      var front := listing[..j];
      assert listing == front + [listing[j]] + listing[j + 1..];
      assert multiset(listing)[listing[j]] == multiset(keys)[listing[j]] <= 1;
      assert listing[j] !in multiset(front);
      assert front[i] == listing[i];
    }
  }

  method SortedItems(dictionary: map<string, nat>) returns (items: seq<Item>)
    ensures Itemizes(items, dictionary)
  {
    var listing := SortedElements(multiset(dictionary.Keys));
    EachOnce(listing, dictionary.Keys);
    forall key ensures key in listing <==> key in dictionary {
      assert key in multiset(listing) <==> key in dictionary.Keys;
    }
    items := seq(|listing|, i requires 0 <= i < |listing| => Item(listing[i], dictionary[listing[i]]));
    forall key | key in dictionary ensures exists i :: 0 <= i < |items| && items[i].key == key {
      var i :| 0 <= i < |listing| && listing[i] == key;
      assert items[i].key == key;
    }
  }

  lemma LabelsDecide(a: Pair, b: Pair)
    requires ' ' !in a.0 && ' ' !in b.0 && RouteLabel(a) == RouteLabel(b)
    ensures a == b
  {
    var text := RouteLabel(a);
    assert text[|a.0|] == ' ' && text[|b.0|] == ' ';
    assert a.0 == text[..|a.0|] && b.0 == text[..|b.0|];
    assert a.1 == text[|a.0| + 1..] && b.1 == text[|b.0| + 1..];
  }

  /** Where no method holds a space, the entries are exactly the pairs served twice, with their counts. */
  lemma RoutesNamedExactly(duplicates: map<string, nat>, counts: multiset<Pair>, pair: Pair)
    requires NamesRoutes(duplicates, counts) && ' ' !in pair.0 && forall p :: p in counts ==> ' ' !in p.0
    ensures RouteLabel(pair) in duplicates <==> counts[pair] > 1
    ensures RouteLabel(pair) in duplicates ==> duplicates[RouteLabel(pair)] == counts[pair]
  {
    if RouteLabel(pair) in duplicates {
      var other :| RouteLabel(other) == RouteLabel(pair) && counts[other] == duplicates[RouteLabel(pair)] > 1;
      LabelsDecide(other, pair);
    }
  }

  // ---------- the report ----------

  ghost predicate ServedOnce(endpoints: seq<Endpoint>) {
    forall m, p :: m != "HEAD" && m != "OPTIONS" ==> Serving(endpoints, m, p) <= 1
  }

  ghost predicate DeclaredOnce(items: seq<PathItem>) {
    forall id :: AllIds(items)[id] <= 1
  }

  lemma NoRouteNamed(endpoints: seq<Endpoint>, duplicates: map<string, nat>)
    requires NamesRoutes(duplicates, AllPairs(endpoints))
    ensures duplicates == map[] <==> ServedOnce(endpoints)
  {
    forall m, p
      ensures AllPairs(endpoints)[(m, p)] == if m == "HEAD" || m == "OPTIONS" then 0 else Serving(endpoints, m, p)
    {
      AllPairsCount(endpoints, m, p);
    }
    if duplicates != map[] {
      var key :| key in duplicates;
      var pair :| RouteLabel(pair) == key && AllPairs(endpoints)[pair] > 1;
      var (m, p) := pair;
      assert Serving(endpoints, m, p) > 1;
    } else {
      forall m, p | m != "HEAD" && m != "OPTIONS" ensures Serving(endpoints, m, p) <= 1 {
        assert AllPairs(endpoints)[(m, p)] > 1 ==> RouteLabel((m, p)) in duplicates;
      }
    }
  }

  /** The report counts and lists what is served or declared twice, and passes exactly if nothing is. */
  ghost predicate Reports(r: AuditReport, endpoints: seq<Endpoint>, items: seq<PathItem>) {
    && r.routePairCount == |AllPairs(endpoints)| && r.operationIdCount == |AllIds(items)|
    && (exists pairs :: InOrder(pairs, endpoints) && Itemizes(r.duplicateRoutes, Labelled(pairs, multiset(pairs))))
    && (exists d :: NamesIds(d, AllIds(items)) && Itemizes(r.duplicateOperationIds, d))
    && (r.ok <==> ServedOnce(endpoints) && DeclaredOnce(items))
  }

  method AuditRoutes(endpoints: seq<Endpoint>, items: seq<PathItem>) returns (r: AuditReport)
    ensures Reports(r, endpoints, items)
  {
    var pairs := CollectPairs(endpoints);
    OrderedCounts(pairs, endpoints);
    LabelledNames(pairs);
    var routes := RouteDuplicates(pairs);
    var duplicateRoutes := SortedItems(routes);
    var ids := CollectIds(items);
    var operations := IdDuplicates(ids);
    var duplicateIds := SortedItems(operations);
    NoRouteNamed(endpoints, routes);
    assert |pairs| == |multiset(pairs)| && |ids| == |multiset(ids)|;
    r := AuditReport(|pairs|, |ids|, duplicateRoutes, duplicateIds, duplicateRoutes == [] && duplicateIds == []);
    NoneListed(duplicateRoutes, routes);
    NoneListed(duplicateIds, operations);
    assert operations == map[] <==> DeclaredOnce(items);
  }

  lemma NoneListed(items: seq<Item>, dictionary: map<string, nat>)
    requires Itemizes(items, dictionary)
    ensures items == [] <==> dictionary == map[]
  {
    if items != [] {
      assert items[0].key in dictionary;
    }
  }
}
