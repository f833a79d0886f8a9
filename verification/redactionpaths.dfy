/** Redaction seen along paths: what is dropped, what stays in place, and where the subtotals stand. */
module RedactionPaths {
  import opened Redaction
  import opened RedactionLaws

  type Path = seq<Step>

  // ---------- the count is the number of dropped entries ----------

  /** `p` enters the i-th child, and ends with dropping it or goes on inside it. */
  predicate Enters(v: Value, i: nat, p: Path, goesOn: bool)
    requires i < Width(v)
  {
    p != [] && StepAt(v, i) == p[0] && if |p| == 1 then Drops(v, i) else !Drops(v, i) && goesOn
  }

  /** `p` names an entry with a sensitive name that lies in no other such entry. */
  ghost predicate DroppedAt(v: Value, p: Path)
    decreases |p|
  {
    p != [] && exists i :: 0 <= i < Width(v) && Enters(v, i, p, DroppedAt(ChildAt(v, i), p[1..]))
  }

  ghost predicate DroppedThrough(v: Value, i: nat, p: Path)
    requires i < Width(v)
  {
    p != [] && Enters(v, i, p, DroppedAt(ChildAt(v, i), p[1..]))
  }

  lemma {:induction false} DroppedThroughSome(v: Value, p: Path)
    ensures DroppedAt(v, p) <==> exists i :: 0 <= i < Width(v) && DroppedThrough(v, i, p)
  {
    if DroppedAt(v, p) {
      var i :| 0 <= i < Width(v) && Enters(v, i, p, DroppedAt(ChildAt(v, i), p[1..]));
      assert DroppedThrough(v, i, p);
    }
  }

  function Prefixed(step: Step, paths: seq<Path>): seq<Path> {
    seq(|paths|, k requires 0 <= k < |paths| => [step] + paths[k])
  }

  function LostIn(v: Value, i: nat): seq<Path>
    requires i < Width(v)
    decreases v, 0, 0
  {
    if Drops(v, i) then [[StepAt(v, i)]] else Prefixed(StepAt(v, i), Lost(ChildAt(v, i)))
  }

  function LostUpTo(v: Value, n: nat): seq<Path>
    requires n <= Width(v)
    decreases v, 1, n
  {
    if n == 0 then [] else LostUpTo(v, n - 1) + LostIn(v, n - 1)
  }

  /** The dropped entries, listed. */
  function Lost(v: Value): seq<Path>
    decreases v, 2, 0
  {
    LostUpTo(v, Width(v))
  }

  lemma {:induction false} LostInCount(v: Value, i: nat)
    requires i < Width(v)
    ensures |LostIn(v, i)| == Loss(v, i)
    decreases v, 0, 0
  {
    if !Drops(v, i) {
      LostCount(ChildAt(v, i));
    }
  }

  lemma {:induction false} LostUpToCount(v: Value, n: nat)
    requires n <= Width(v)
    ensures |LostUpTo(v, n)| == Sum(Losses(v)[..n])
    decreases v, 1, n
  {
    if n > 0 {
      LostUpToCount(v, n - 1);
      LostInCount(v, n - 1);
      SumNext(Losses(v), n - 1);
    }
  }

  lemma {:induction false} LostCount(v: Value)
    ensures |Lost(v)| == Dropped(v)
    decreases v, 2, 0
  {
    LostUpToCount(v, Width(v));
    assert Losses(v)[..Width(v)] == Losses(v);
  }

  lemma {:induction false} LostInMembers(v: Value, i: nat, p: Path)
    requires i < Width(v)
    ensures p in LostIn(v, i) <==> DroppedThrough(v, i, p)
    decreases v, 0, 0
  {
    if Drops(v, i) {
      assert p in LostIn(v, i) <==> p == [StepAt(v, i)];
      assert |p| == 1 ==> p == [p[0]];
    } else {
      var step, inner := StepAt(v, i), Lost(ChildAt(v, i));
      if p in LostIn(v, i) {
        var k :| 0 <= k < |inner| && p == [step] + inner[k];
        LostMembers(ChildAt(v, i), inner[k]);
        assert p[1..] == inner[k];
      }
      if DroppedThrough(v, i, p) {
        LostMembers(ChildAt(v, i), p[1..]);
        var k :| 0 <= k < |inner| && inner[k] == p[1..];
        assert Prefixed(step, inner)[k] == p;
      }
    }
  }

  lemma {:induction false} LostUpToMembers(v: Value, n: nat, p: Path)
    requires n <= Width(v)
    ensures p in LostUpTo(v, n) <==> exists i :: 0 <= i < n && DroppedThrough(v, i, p)
    decreases v, 1, n
  {
    if n > 0 {
      LostUpToMembers(v, n - 1, p);
      LostInMembers(v, n - 1, p);
    }
  }

  lemma {:induction false} LostMembers(v: Value, p: Path)
    ensures p in Lost(v) <==> DroppedAt(v, p)
    decreases v, 2, 0
  {
    LostUpToMembers(v, Width(v), p);
    DroppedThroughSome(v, p);
  }

  ghost predicate NoRepeats(paths: seq<Path>) {
    forall i, j :: 0 <= i < j < |paths| ==> paths[i] != paths[j]
  }

  lemma {:induction false} LostInDistinct(v: Value, i: nat)
    requires i < Width(v) && Keyed(v)
    ensures NoRepeats(LostIn(v, i))
    decreases v, 0, 0
  {
    if !Drops(v, i) {
      LostDistinct(ChildAt(v, i));
      var step, inner := StepAt(v, i), Lost(ChildAt(v, i));
      forall j, k | 0 <= j < k < |inner| ensures [step] + inner[j] != [step] + inner[k] {
        assert ([step] + inner[j])[1..] == inner[j] && ([step] + inner[k])[1..] == inner[k];
      }
    }
  }

  lemma {:induction false} LostUpToDistinct(v: Value, n: nat)
    requires n <= Width(v) && Keyed(v)
    ensures NoRepeats(LostUpTo(v, n))
    decreases v, 1, n
  {
    if n > 0 {
      LostUpToDistinct(v, n - 1);
      LostInDistinct(v, n - 1);
      var before, here := LostUpTo(v, n - 1), LostIn(v, n - 1);
      forall j, k | 0 <= j < |before| && 0 <= k < |here| ensures before[j] != here[k] {
        LostUpToMembers(v, n - 1, before[j]);
        LostInMembers(v, n - 1, here[k]);
        var i :| 0 <= i < n - 1 && DroppedThrough(v, i, before[j]);
        assert StepAt(v, i) != StepAt(v, n - 1);
      }
    }
  }

  lemma {:induction false} LostDistinct(v: Value)
    requires Keyed(v)
    ensures NoRepeats(Lost(v))
    decreases v, 2, 0
  {
    LostUpToDistinct(v, Width(v));
  }

  /** The count that redaction returns is the number of entries that it drops in the whole tree. */
  lemma CountIsExact(v: Value)
    requires Keyed(v)
    ensures |Lost(v)| == Dropped(v) && NoRepeats(Lost(v)) && forall p :: p in Lost(v) <==> DroppedAt(v, p)
  {
    LostCount(v);
    LostDistinct(v);
    forall p ensures p in Lost(v) <==> DroppedAt(v, p) {
      LostMembers(v, p);
    }
  }

  // ---------- what stays, stays in place ----------

  ghost predicate Leads(v: Value, p: Path, sub: Value)
    decreases |p|
  {
    if p == [] then v == sub
    else exists i :: 0 <= i < Width(v) && StepAt(v, i) == p[0] && Leads(ChildAt(v, i), p[1..], sub)
  }

  /** The i-th child survives: it is not dropped, and not overwritten by the count. */
  ghost predicate Survives(v: Value, i: nat)
    requires i < Width(v)
  {
    !Drops(v, i) && !(Dropped(v) > 0 && StepAt(v, i) == Field(COUNT_KEY))
  }

  ghost predicate LeadsVisibly(v: Value, p: Path, sub: Value)
    decreases |p|
  {
    if p == [] then v == sub
    else
      exists i :: 0 <= i < Width(v) && StepAt(v, i) == p[0] && Survives(v, i)
                  && LeadsVisibly(ChildAt(v, i), p[1..], sub)
  }

  lemma {:induction false} KeptHas(entries: seq<Entry>, e: Entry)
    requires e in entries && !IsSensitive(e.key)
    ensures e in Kept(entries)
  {
    if e != entries[|entries| - 1] {
      assert entries == entries[..|entries| - 1] + [entries[|entries| - 1]];
      KeptHas(entries[..|entries| - 1], e);
    }
  }

  lemma {:induction false} PutHas(entries: seq<Entry>, key: string, value: Value, e: Entry)
    requires (e in entries && e.key != key) || e == Entry(key, value)
    ensures e in Put(entries, key, value)
  {
    if entries != [] {
      assert entries == [entries[0]] + entries[1..];
      if entries[0].key == key {
        assert Put(entries, key, value)[0] == Entry(key, value);
      } else if e != entries[0] {
        PutHas(entries[1..], key, value, e);
      } else {
        assert Put(entries, key, value)[0] == e;
      }
    }
  }

  /** A surviving child is found, redacted, under the same step. */
  lemma ChildSurvives(r: Redactor, v: Value, i: nat) returns (j: nat)
    requires i < Width(v) && Survives(v, i)
    ensures var w := Redacted(r, v);
            j < Width(w) && StepAt(w, j) == StepAt(v, i) && ChildAt(w, j) == Redacted(r, ChildAt(v, i))
  {
    var w := Redacted(r, v);
    if v.Dict? {
      var all := RedactedEntries(r, v);
      KeptHas(all, all[i]);
      if Dropped(v) > 0 {
        PutHas(Kept(all), COUNT_KEY, Number(Dropped(v)), all[i]);
      }
      j :| 0 <= j < |w.entries| && w.entries[j] == all[i];
    } else {
      assert w == List(RedactedItems(r, v));
      j := i;
    }
  }

  /** Whatever a surviving path leads to is found at the same path of the redacted value, redacted. */
  lemma {:induction false} RedactedInPlace(r: Redactor, v: Value, p: Path, sub: Value)
    requires LeadsVisibly(v, p, sub)
    ensures Leads(Redacted(r, v), p, Redacted(r, sub))
    decreases |p|
  {
    if p != [] {
      var i :| 0 <= i < Width(v) && StepAt(v, i) == p[0] && Survives(v, i) && LeadsVisibly(ChildAt(v, i), p[1..], sub);
      var j := ChildSurvives(r, v, i);
      RedactedInPlace(r, ChildAt(v, i), p[1..], sub);
    }
  }

  lemma {:induction false} LeadsOn(v: Value, p: Path, sub: Value, step: Step, i: nat)
    requires Leads(v, p, sub) && i < Width(sub) && StepAt(sub, i) == step
    ensures Leads(v, p + [step], ChildAt(sub, i))
    decreases |p|
  {
    if p == [] {
      assert [step][1..] == [];
      assert Leads(ChildAt(sub, i), [], ChildAt(sub, i));
    } else {
      var k :| 0 <= k < Width(v) && StepAt(v, k) == p[0] && Leads(ChildAt(v, k), p[1..], sub);
      LeadsOn(ChildAt(v, k), p[1..], sub, step, i);
      assert (p + [step])[1..] == p[1..] + [step];
    }
  }

  predicate SameKeys(a: seq<Entry>, b: seq<Entry>) {
    |a| == |b| && forall i :: 0 <= i < |a| ==> a[i].key == b[i].key
  }

  /** A dictionary that lost entries at any depth says how many; any other keeps its keys. */
  lemma SubtotalRecorded(r: Redactor, v: Value)
    requires v.Dict?
    ensures var w := Redacted(r, v);
            && w.Dict?
            && (Dropped(v) > 0 ==> Entry(COUNT_KEY, Number(Dropped(v))) in w.entries)
            && (Dropped(v) == 0 ==> SameKeys(w.entries, v.entries))
  {
    if Dropped(v) > 0 {
      PutHas(Kept(RedactedEntries(r, v)), COUNT_KEY, Number(Dropped(v)), Entry(COUNT_KEY, Number(Dropped(v))));
    } else {
      NothingDropped(v);
      var all := RedactedEntries(r, v);
      forall i | 0 <= i < |all| ensures !IsSensitive(all[i].key) {
        assert !Drops(v, i);
      }
      KeptAll(all);
    }
  }

  lemma {:induction false} SumBoundsElements(s: seq<nat>, i: nat)
    requires i < |s|
    ensures s[i] <= Sum(s)
  {
    if i < |s| - 1 {
      SumBoundsElements(s[..|s| - 1], i);
    }
  }

  lemma NothingDropped(v: Value)
    requires Dropped(v) == 0
    ensures forall i :: 0 <= i < Width(v) ==> !Drops(v, i)
  {
    forall i | 0 <= i < Width(v) ensures !Drops(v, i) {
      SumBoundsElements(Losses(v), i);
      assert Losses(v)[i] == Loss(v, i);
    }
  }

  /** Every dictionary in place whose subtree lost entries records its own subtotal. */
  lemma SubtotalsInPlace(r: Redactor, v: Value, p: Path, sub: Value)
    requires LeadsVisibly(v, p, sub) && sub.Dict? && Dropped(sub) > 0
    ensures Leads(Redacted(r, v), p + [Field(COUNT_KEY)], Number(Dropped(sub)))
  {
    RedactedInPlace(r, v, p, sub);
    SubtotalRecorded(r, sub);
    var w := Redacted(r, sub);
    var i :| 0 <= i < |w.entries| && w.entries[i] == Entry(COUNT_KEY, Number(Dropped(sub)));
    LeadsOn(Redacted(r, v), p, w, Field(COUNT_KEY), i);
  }

  // ---------- the result is again a keyed value ----------

  ghost predicate DistinctKeys(entries: seq<Entry>) {
    forall i, j :: 0 <= i < j < |entries| ==> entries[i].key != entries[j].key
  }

  lemma {:induction false} KeptDistinct(entries: seq<Entry>)
    requires DistinctKeys(entries)
    ensures DistinctKeys(Kept(entries))
  {
    if entries != [] {
      KeptDistinct(entries[..|entries| - 1]);
      KeptLacks(entries, |entries| - 1);
    }
  }

  lemma {:induction false} PutDistinct(entries: seq<Entry>, key: string, value: Value)
    requires DistinctKeys(entries)
    ensures DistinctKeys(Put(entries, key, value))
  {
    if entries != [] && entries[0].key != key {
      PutDistinct(entries[1..], key, value);
      var rest := Put(entries[1..], key, value);
      forall i | 0 <= i < |rest| ensures rest[i].key != entries[0].key {
        PutMembers(entries[1..], key, value, rest[i]);
      }
    }
  }

  lemma {:induction false} RedactedIsKeyed(r: Redactor, v: Value)
    requires Keyed(v)
    ensures Keyed(Redacted(r, v))
  {
    var w := Redacted(r, v);
    if v.Dict? {
      var all := RedactedEntries(r, v);
      forall i, j | 0 <= i < j < |all| ensures all[i].key != all[j].key {
        assert StepAt(v, i) != StepAt(v, j);
      }
      KeptDistinct(all);
      PutDistinct(Kept(all), COUNT_KEY, Number(Dropped(v)));
      forall i | 0 <= i < Width(w) ensures Keyed(ChildAt(w, i)) {
        var e := w.entries[i];
        RedactedEntry(r, v, e);
        if e != Entry(COUNT_KEY, Number(Dropped(v))) {
          var k :| 0 <= k < Width(v) && e.value == Redacted(r, ChildAt(v, k));
          RedactedIsKeyed(r, ChildAt(v, k));
        }
      }
    } else if v.List? || v.Tuple? {
      assert w == List(RedactedItems(r, v));
      forall i | 0 <= i < Width(v) ensures Keyed(ChildAt(w, i)) {
        RedactedIsKeyed(r, ChildAt(v, i));
      }
    }
  }
}
