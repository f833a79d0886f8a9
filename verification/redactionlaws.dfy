/** What redaction guarantees about any string-keyed nested value. */
module RedactionLaws {
  import opened Redaction
  import opened Text

  // ---------- the name of the count is not itself sensitive ----------

  lemma HasCharacters(text: string, token: string, k: nat)
    requires Contains(text, token) && k < |token|
    ensures exists i :: 0 <= i < |text| && text[i] == token[k]
                        && (k + 1 < |token| ==> i + 1 < |text| && text[i + 1] == token[k + 1])
  {
    var i :| 0 <= i <= |text| - |token| && OccursAt(text, token, i);
    assert text[i..i + |token|][k] == text[i + k];
    assert k + 1 < |token| ==> text[i..i + |token|][k + 1] == text[i + k + 1];
  }

  predicate Lacks(text: string, c: char) {
    forall i :: 0 <= i < |text| ==> text[i] != c
  }

  predicate NeverFollows(text: string, c: char, d: char) {
    forall i :: 0 <= i < |text| - 1 ==> text[i] == c ==> text[i + 1] != d
  }

  lemma Absent(text: string, token: string, k: nat)
    requires k < |token|
    requires Lacks(text, token[k]) || (k + 1 < |token| && NeverFollows(text, token[k], token[k + 1]))
    ensures !Contains(text, token)
  {
    if Contains(text, token) {
      HasCharacters(text, token, k);
      assert false;
    }
  }

  lemma CountKeyCharacters()
    ensures Lacks(COUNT_KEY, 'w') && Lacks(COUNT_KEY, 'p') && Lacks(COUNT_KEY, 'y') && Lacks(COUNT_KEY, 'h')
    ensures Lacks(COUNT_KEY, 'k') && Lacks(COUNT_KEY, 'j') && NeverFollows(COUNT_KEY, 's', 'e')
  {
  }

  lemma CountKeyNormalized()
    ensures LowerAll(Strip(COUNT_KEY)) == COUNT_KEY
  {
    StrippedStays(COUNT_KEY);
  }

  lemma KeysAbsent()
    ensures !Contains(COUNT_KEY, "raw_api_key") && !Contains(COUNT_KEY, "api_key")
    ensures !Contains(COUNT_KEY, "provider_secret") && !Contains(COUNT_KEY, "encrypted_key")
    ensures !Contains(COUNT_KEY, "client_secret") && !Contains(COUNT_KEY, "secret")
  {
    CountKeyCharacters();
    Absent(COUNT_KEY, "raw_api_key", 2);
    Absent(COUNT_KEY, "api_key", 1);
    Absent(COUNT_KEY, "provider_secret", 0);
    Absent(COUNT_KEY, "encrypted_key", 5);
    Absent(COUNT_KEY, "client_secret", 7);
    Absent(COUNT_KEY, "secret", 0);
  }

  lemma CredentialsAbsent()
    ensures !Contains(COUNT_KEY, "authorization") && !Contains(COUNT_KEY, "cookie")
    ensures !Contains(COUNT_KEY, "password") && !Contains(COUNT_KEY, "token") && !Contains(COUNT_KEY, "jwt")
  {
    CountKeyCharacters();
    Absent(COUNT_KEY, "authorization", 3);
    Absent(COUNT_KEY, "cookie", 3);
    Absent(COUNT_KEY, "password", 0);
    Absent(COUNT_KEY, "token", 2);
    Absent(COUNT_KEY, "jwt", 0);
  }

  lemma CountKeyIsPlain()
    ensures !IsSensitive(COUNT_KEY)
  {
    CountKeyNormalized();
    KeysAbsent();
    CredentialsAbsent();
  }

  // ---------- nothing sensitive remains ----------

  /** No entry at any depth has a sensitive name. */
  predicate Clean(v: Value) {
    forall i :: 0 <= i < Width(v) ==> !Drops(v, i) && Clean(ChildAt(v, i))
  }

  lemma {:induction false} PutMembers(entries: seq<Entry>, key: string, value: Value, e: Entry)
    requires e in Put(entries, key, value)
    ensures e == Entry(key, value) || e in entries
  {
    if entries != [] {
      assert entries == [entries[0]] + entries[1..];
      if entries[0].key != key && e in Put(entries[1..], key, value) {
        PutMembers(entries[1..], key, value, e);
      }
    }
  }

  /** Every entry of a redacted dictionary is a redacted entry of the original one, or the count. */
  lemma RedactedEntry(r: Redactor, v: Value, e: Entry)
    requires v.Dict? && e in WithCount(Kept(RedactedEntries(r, v)), Dropped(v))
    ensures !IsSensitive(e.key)
    ensures
      || e == Entry(COUNT_KEY, Number(Dropped(v)))
      || exists i :: 0 <= i < Width(v) && e.value == Redacted(r, ChildAt(v, i))
  {
    CountKeyIsPlain();
    var all := RedactedEntries(r, v);
    if Dropped(v) > 0 {
      PutMembers(Kept(all), COUNT_KEY, Number(Dropped(v)), e);
    }
    if e != Entry(COUNT_KEY, Number(Dropped(v))) {
      KeptAreListed(all, e);
      var i :| 0 <= i < |all| && all[i] == e;
      assert e.value == Redacted(r, ChildAt(v, i));
    }
  }

  lemma {:induction false} RedactedIsClean(r: Redactor, v: Value)
    ensures Clean(Redacted(r, v))
  {
    var w := Redacted(r, v);
    if v.Dict? {
      forall i | 0 <= i < Width(w) ensures !Drops(w, i) && Clean(ChildAt(w, i)) {
        var e := w.entries[i];
        RedactedEntry(r, v, e);
        if e != Entry(COUNT_KEY, Number(Dropped(v))) {
          var k :| 0 <= k < Width(v) && e.value == Redacted(r, ChildAt(v, k));
          RedactedIsClean(r, ChildAt(v, k));
        }
      }
    } else if v.List? || v.Tuple? {
      assert w == List(RedactedItems(r, v));
      forall i | 0 <= i < Width(v) ensures Clean(ChildAt(w, i)) {
        RedactedIsClean(r, ChildAt(v, i));
      }
    }
  }

  // ---------- redacting again changes nothing ----------

  /** The redactor leaves every string of the value alone, and no tuple is left. */
  predicate Settled(r: Redactor, v: Value) {
    match v
    case Str(text) => r(text) == text
    case Tuple(_) => false
    case _ => forall i :: 0 <= i < Width(v) ==> Settled(r, ChildAt(v, i))
  }

  lemma {:induction false} SumOfZeros(s: seq<nat>)
    requires forall i :: 0 <= i < |s| ==> s[i] == 0
    ensures Sum(s) == 0
  {
    if s != [] {
      SumOfZeros(s[..|s| - 1]);
    }
  }

  lemma {:induction false} KeptAll(entries: seq<Entry>)
    requires forall i :: 0 <= i < |entries| ==> !IsSensitive(entries[i].key)
    ensures Kept(entries) == entries
  {
    if entries != [] {
      KeptAll(entries[..|entries| - 1]);
    }
  }

  lemma {:induction false} CleanLosesNothing(v: Value)
    requires Clean(v)
    ensures Dropped(v) == 0
  {
    forall i | 0 <= i < Width(v) ensures Losses(v)[i] == 0 {
      assert !Drops(v, i);
      CleanLosesNothing(ChildAt(v, i));
    }
    SumOfZeros(Losses(v));
  }

  lemma {:induction false} SettledStays(r: Redactor, v: Value)
    requires Clean(v) && Settled(r, v)
    ensures Redacted(r, v) == v
  {
    forall i | 0 <= i < Width(v) ensures Redacted(r, ChildAt(v, i)) == ChildAt(v, i) && !Drops(v, i) {
      SettledStays(r, ChildAt(v, i));
    }
    if v.Dict? {
      CleanLosesNothing(v);
      assert RedactedEntries(r, v) == v.entries;
      assert forall i :: 0 <= i < |v.entries| ==> !Drops(v, i) ==> !IsSensitive(v.entries[i].key);
      KeptAll(v.entries);
    } else if v.List? {
      assert RedactedItems(r, v) == v.items;
    }
  }

  predicate Idempotent(r: Redactor, text: string) {
    r(r(text)) == r(text)
  }

  lemma {:induction false} RedactedIsSettled(r: Redactor, v: Value)
    requires forall text: string :: Idempotent(r, text)
    ensures Settled(r, Redacted(r, v))
  {
    var w := Redacted(r, v);
    if v.Str? {
      assert Idempotent(r, v.text);
    } else if v.Dict? {
      forall i | 0 <= i < Width(w) ensures Settled(r, ChildAt(w, i)) {
        var e := w.entries[i];
        RedactedEntry(r, v, e);
        if e != Entry(COUNT_KEY, Number(Dropped(v))) {
          var k :| 0 <= k < Width(v) && e.value == Redacted(r, ChildAt(v, k));
          RedactedIsSettled(r, ChildAt(v, k));
        }
      }
    } else if v.List? || v.Tuple? {
      assert w == List(RedactedItems(r, v));
      forall i | 0 <= i < Width(v) ensures Settled(r, ChildAt(w, i)) {
        RedactedIsSettled(r, ChildAt(v, i));
      }
    }
  }

  /** With a redactor that is idempotent on strings, redaction is idempotent, and drops nothing the second time. */
  lemma RedactionIsIdempotent(r: Redactor, v: Value)
    requires forall text: string :: Idempotent(r, text)
    ensures Redacted(r, Redacted(r, v)) == Redacted(r, v) && Dropped(Redacted(r, v)) == 0
  {
    RedactedIsClean(r, v);
    RedactedIsSettled(r, v);
    SettledStays(r, Redacted(r, v));
    CleanLosesNothing(Redacted(r, v));
  }
}
