/** Redaction of nested audit values: entries with sensitive names are dropped and counted, strings are rewritten. */
module Redaction {
  import opened Text

  /** A string-keyed nested value; a dictionary lists its entries in insertion order. */
  datatype Value =
    | Str(text: string)
    | List(items: seq<Value>)
    | Tuple(items: seq<Value>)
    | Dict(entries: seq<Entry>)
    | Number(n: int)
    | Other(tag: int)

  datatype Entry = Entry(key: string, value: Value)

  /** The rewriting of a single string. */
  type Redactor = string -> string

  const SENSITIVE_FIELD_TOKENS: seq<string> := [
    "raw_api_key", "api_key", "provider_secret", "encrypted_key", "authorization", "cookie", "password",
    "client_secret", "secret", "token", "jwt"]

  const COUNT_KEY := "redacted_fields_count"

  predicate OccursAt(text: string, token: string, i: int) {
    0 <= i <= |text| - |token| && text[i..i + |token|] == token
  }

  predicate Contains(text: string, token: string) {
    exists i :: 0 <= i <= |text| - |token| && OccursAt(text, token, i)
  }

  predicate IsSensitive(name: string) {
    var normalized := LowerAll(Strip(name));
    exists k :: 0 <= k < |SENSITIVE_FIELD_TOKENS| && Contains(normalized, SENSITIVE_FIELD_TOKENS[k])
  }

  // ---------- children ----------

  datatype Step = Index(i: nat) | Field(key: string)

  function Width(v: Value): nat {
    match v
    case List(items) => |items|
    case Tuple(items) => |items|
    case Dict(entries) => |entries|
    case _ => 0
  }

  function ChildAt(v: Value, i: nat): (child: Value)
    requires i < Width(v)
    ensures child < v
  {
    match v
    case List(items) => items[i]
    case Tuple(items) => items[i]
    case Dict(entries) => entries[i].value
  }

  function StepAt(v: Value, i: nat): Step
    requires i < Width(v)
  {
    if v.Dict? then Field(v.entries[i].key) else Index(i)
  }

  /** Whether the i-th child is an entry with a sensitive name. */
  predicate Drops(v: Value, i: nat)
    requires i < Width(v)
  {
    v.Dict? && IsSensitive(v.entries[i].key)
  }

  /** No dictionary lists a key twice. */
  predicate Keyed(v: Value) {
    && (forall i, j :: 0 <= i < j < Width(v) ==> StepAt(v, i) != StepAt(v, j))
    && forall i :: 0 <= i < Width(v) ==> Keyed(ChildAt(v, i))
  }

  // ---------- the specification ----------

  function Sum(s: seq<nat>): nat {
    if s == [] then 0 else Sum(s[..|s| - 1]) + s[|s| - 1]
  }

  function Loss(v: Value, i: nat): nat
    requires i < Width(v)
    decreases v, 0
  {
    if Drops(v, i) then 1 else Dropped(ChildAt(v, i))
  }

  function Losses(v: Value): seq<nat>
    decreases v, 1
  {
    seq(Width(v), i requires 0 <= i < Width(v) => Loss(v, i))
  }

  /** How many entries redaction drops. */
  function Dropped(v: Value): nat
    decreases v, 2
  {
    Sum(Losses(v))
  }

  function RedactedItems(r: Redactor, v: Value): seq<Value>
    decreases v, 0
  {
    seq(Width(v), i requires 0 <= i < Width(v) => Redacted(r, ChildAt(v, i)))
  }

  function RedactedEntries(r: Redactor, v: Value): seq<Entry>
    requires v.Dict?
    decreases v, 0
  {
    seq(Width(v), i requires 0 <= i < Width(v) => Entry(v.entries[i].key, Redacted(r, ChildAt(v, i))))
  }

  /** The entries without a sensitive name. */
  function Kept(entries: seq<Entry>): seq<Entry> {
    if entries == [] then []
    else
      var last := entries[|entries| - 1];
      Kept(entries[..|entries| - 1]) + if IsSensitive(last.key) then [] else [last]
  }

  /** Assignment to a dictionary key. */
  function Put(entries: seq<Entry>, key: string, value: Value): seq<Entry> {
    if entries == [] then [Entry(key, value)]
    else if entries[0].key == key then [Entry(key, value)] + entries[1..]
    else [entries[0]] + Put(entries[1..], key, value)
  }

  function WithCount(entries: seq<Entry>, count: nat): seq<Entry> {
    if count > 0 then Put(entries, COUNT_KEY, Number(count)) else entries
  }

  function Redacted(r: Redactor, v: Value): Value
    decreases v, 1
  {
    match v
    case Str(text) => Str(r(text))
    case List(_) => List(RedactedItems(r, v))
    case Tuple(_) => List(RedactedItems(r, v))
    case Dict(_) => Dict(WithCount(Kept(RedactedEntries(r, v)), Dropped(v)))
    case _ => v
  }

  // ---------- the recursion with its loops ----------

  lemma KeptNext(entries: seq<Entry>, i: nat)
    requires i < |entries|
    ensures Kept(entries[..i + 1]) == Kept(entries[..i]) + if IsSensitive(entries[i].key) then [] else [entries[i]]
  {
    assert entries[..i + 1][..i] == entries[..i];
  }

  lemma SumNext(s: seq<nat>, i: nat)
    requires i < |s|
    ensures Sum(s[..i + 1]) == Sum(s[..i]) + s[i]
  {
    assert s[..i + 1][..i] == s[..i];
  }

  lemma {:induction false} PutNew(entries: seq<Entry>, key: string, value: Value)
    requires forall i :: 0 <= i < |entries| ==> entries[i].key != key
    ensures Put(entries, key, value) == entries + [Entry(key, value)]
  {
    if entries != [] {
      PutNew(entries[1..], key, value);
    }
  }

  lemma {:induction false} KeptAreListed(entries: seq<Entry>, e: Entry)
    requires e in Kept(entries)
    ensures e in entries && !IsSensitive(e.key)
  {
    if e !in Kept(entries[..|entries| - 1]) {
      assert e == entries[|entries| - 1];
    } else {
      KeptAreListed(entries[..|entries| - 1], e);
    }
  }

  lemma KeptLacks(entries: seq<Entry>, i: nat)
    requires i < |entries| && forall j :: 0 <= j < i ==> entries[j].key != entries[i].key
    ensures forall k :: 0 <= k < |Kept(entries[..i])| ==> Kept(entries[..i])[k].key != entries[i].key
  {
    forall k | 0 <= k < |Kept(entries[..i])| ensures Kept(entries[..i])[k].key != entries[i].key {
      KeptAreListed(entries[..i], Kept(entries[..i])[k]);
    }
  }

  lemma KeysDiffer(r: Redactor, v: Value, i: nat)
    requires v.Dict? && Keyed(v) && i < Width(v)
    ensures forall j :: 0 <= j < i ==> RedactedEntries(r, v)[j].key != RedactedEntries(r, v)[i].key
  {
    forall j | 0 <= j < i ensures v.entries[j].key != v.entries[i].key {
      assert StepAt(v, j) != StepAt(v, i);
    }
  }

  /** One more entry of a dictionary: skipped, or put after the entries kept so far. */
  lemma NextEntry(r: Redactor, v: Value, i: nat)
    requires v.Dict? && Keyed(v) && i < Width(v)
    ensures var all, e := RedactedEntries(r, v), RedactedEntries(r, v)[i];
            Kept(all[..i + 1]) == if IsSensitive(e.key) then Kept(all[..i]) else Put(Kept(all[..i]), e.key, e.value)
    ensures Sum(Losses(v)[..i + 1]) == Sum(Losses(v)[..i]) + Loss(v, i)
  {
    var all := RedactedEntries(r, v);
    KeptNext(all, i);
    SumNext(Losses(v), i);
    KeysDiffer(r, v, i);
    KeptLacks(all, i);
    PutNew(Kept(all[..i]), all[i].key, all[i].value);
  }

  lemma NextItem(r: Redactor, v: Value, i: nat)
    requires i < Width(v) && !v.Dict?
    ensures RedactedItems(r, v)[..i + 1] == RedactedItems(r, v)[..i] + [Redacted(r, ChildAt(v, i))]
    ensures Sum(Losses(v)[..i + 1]) == Sum(Losses(v)[..i]) + Dropped(ChildAt(v, i))
  {
    SumNext(Losses(v), i);
  }

  lemma AllChildren(r: Redactor, v: Value)
    ensures Losses(v)[..Width(v)] == Losses(v) && RedactedItems(r, v)[..Width(v)] == RedactedItems(r, v)
    ensures v.Dict? ==> RedactedEntries(r, v)[..Width(v)] == RedactedEntries(r, v)
  {
  }

  /** Lists and tuples become lists; the count is the sum of the items' counts. */
  method RedactItems(r: Redactor, v: Value) returns (redacted: seq<Value>, count: nat)
    requires (v.List? || v.Tuple?) && Keyed(v)
    ensures redacted == RedactedItems(r, v) && count == Dropped(v)
    decreases v, 0
  {
    redacted, count := [], 0;
    for i := 0 to |v.items|
      invariant redacted == RedactedItems(r, v)[..i]
      invariant count == Sum(Losses(v)[..i])
    {
      NextItem(r, v, i);
      var item, itemCount := RedactValue(r, ChildAt(v, i));
      redacted := redacted + [item];
      count := count + itemCount;
    }
    AllChildren(r, v);
  }

  method RedactEntries(r: Redactor, v: Value) returns (redacted: seq<Entry>, count: nat)
    requires v.Dict? && Keyed(v)
    ensures redacted == WithCount(Kept(RedactedEntries(r, v)), Dropped(v)) && count == Dropped(v)
    decreases v, 0
  {
    redacted, count := [], 0;
    for i := 0 to |v.entries|
      invariant redacted == Kept(RedactedEntries(r, v)[..i])
      invariant count == Sum(Losses(v)[..i])
    {
      NextEntry(r, v, i);
      if IsSensitive(v.entries[i].key) {
        count := count + 1;
      } else {
        var item, itemCount := RedactValue(r, ChildAt(v, i));
        redacted := Put(redacted, v.entries[i].key, item);
        count := count + itemCount;
      }
    }
    AllChildren(r, v);
    if count > 0 {
      redacted := Put(redacted, COUNT_KEY, Number(count));
    }
  }

  method RedactValue(r: Redactor, v: Value) returns (redacted: Value, count: nat)
    requires Keyed(v)
    ensures redacted == Redacted(r, v) && count == Dropped(v)
    decreases v, 1
  {
    match v {
      case Str(text) => redacted, count := Str(r(text)), 0;
      case List(_) =>
        var items, n := RedactItems(r, v);
        redacted, count := List(items), n;
      case Tuple(_) =>
        var items, n := RedactItems(r, v);
        redacted, count := List(items), n;
      case Dict(_) =>
        var entries, n := RedactEntries(r, v);
        redacted, count := Dict(entries), n;
      case Number(_) => redacted, count := v, 0;
      case Other(_) => redacted, count := v, 0;
    }
  }
}
