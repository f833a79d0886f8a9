/** Which names of entries count as sensitive. */
module RedactionNames {
  import opened Redaction
  import opened RedactionLaws
  import opened RedactionPaths
  import opened Text

  /** The eleven words that make a name sensitive. */
  predicate IsToken(word: string) {
    || word == "raw_api_key" || word == "api_key" || word == "provider_secret" || word == "encrypted_key"
    || word == "authorization" || word == "cookie" || word == "password" || word == "client_secret"
    || word == "secret" || word == "token" || word == "jwt"
  }

  /** The name is `p + t + q` where `t` is the word in any mixture of capitals and small letters. */
  ghost predicate Holds(name: string, word: string) {
    exists p, t, q :: name == p + (t + q) && SameButCase(t, word)
  }

  /** The name holds one of the words, wherever it stands and however it is written. */
  ghost predicate Names(name: string) {
    exists word :: IsToken(word) && Holds(name, word)
  }

  predicate WordCharacter(c: char) {
    c == '_' || 'a' <= c <= 'z'
  }

  predicate IsWord(word: string) {
    word != "" && forall i :: 0 <= i < |word| ==> WordCharacter(word[i])
  }

  lemma TokensAreWords(word: string)
    requires IsToken(word)
    ensures IsWord(word)
  {
  }

  lemma TokensAre(k: nat)
    requires k < |SENSITIVE_FIELD_TOKENS|
    ensures IsToken(SENSITIVE_FIELD_TOKENS[k])
  {
  }

  lemma TokenIsListed(word: string) returns (k: nat)
    requires IsToken(word)
    ensures k < |SENSITIVE_FIELD_TOKENS| && SENSITIVE_FIELD_TOKENS[k] == word
  {
    k := if word == "raw_api_key" then 0 else if word == "api_key" then 1 else if word == "provider_secret" then 2
    else if word == "encrypted_key" then 3 else if word == "authorization" then 4 else if word == "cookie" then 5
    else if word == "password" then 6 else if word == "client_secret" then 7 else if word == "secret" then 8
    else if word == "token" then 9 else 10;
  }

  lemma WordIsLower(t: string, word: string)
    requires IsWord(word)
    ensures LowerAll(t) == word <==> SameButCase(t, word)
  {
    forall i | 0 <= i < |word| ensures word[i] !in CAPITALS {
      LowerIs(word[i]);
      assert WordCharacter(word[i]) && Lower(word[i]) == word[i];
    }
    LowerAllIs(t, word);
  }

  lemma WordHasNoSpace(t: string, word: string)
    requires IsWord(word) && SameButCase(t, word)
    ensures |t| == |word| > 0 && !IsSpace(t[0]) && !IsSpace(t[|t| - 1])
  {
    var n := |t| - 1;
    assert WordCharacter(word[0]) && WordCharacter(word[n]) && SameLetter(t[0], word[0]) && SameLetter(t[n], word[n]);
    CapitalIs(t[0], word[0]);
    CapitalIs(word[0], t[0]);
    CapitalIs(t[n], word[n]);
    CapitalIs(word[n], t[n]);
  }

  lemma HeldAround(before: string, s: string, after: string, i: nat, word: string)
    requires i + |word| <= |s| && SameButCase(s[i..i + |word|], word)
    ensures Holds(before + s + after, word)
  {
    var t, rest := s[i..i + |word|], s[i + |word|..];
    assert s == s[..i] + (t + rest);
    assert before + s + after == (before + s[..i]) + (t + (rest + after));
  }

  lemma ContainedIsHeld(name: string, word: string)
    requires IsWord(word) && Contains(LowerAll(Strip(name)), word)
    ensures Holds(name, word)
  {
    var before, after := StripSplits(name);
    var s := Strip(name);
    var i :| 0 <= i <= |LowerAll(s)| - |word| && OccursAt(LowerAll(s), word, i);
    LoweredPart(s, i, s[i..i + |word|]);
    WordIsLower(s[i..i + |word|], word);
    HeldAround(before, s, after, i, word);
  }

  lemma HeldIsInside(before: string, s: string, after: string, p: string, t: string, q: string)
    requires Blank(before) && Blank(after) && before + s + after == p + (t + q)
    requires t != "" && !IsSpace(t[0]) && !IsSpace(t[|t| - 1])
    ensures |before| <= |p| && |p| + |t| <= |before| + |s| && s[|p| - |before|..|p| - |before| + |t|] == t
  {
    var name := before + s + after;
    assert name[|p|] == t[0] && name[|p| + |t| - 1] == t[|t| - 1];
    assert forall i :: 0 <= i < |before| ==> IsSpace(name[i]);
    assert forall i :: |before| + |s| <= i < |name| ==> name[i] == after[i - |before| - |s|] && IsSpace(name[i]);
    assert name[|p|..|p| + |t|] == t;
    assert name[|before|..|before| + |s|] == s;
  }

  lemma LoweredPart(s: string, i: nat, t: string)
    requires i + |t| <= |s| && s[i..i + |t|] == t
    ensures i + |t| <= |LowerAll(s)| && LowerAll(s)[i..i + |t|] == LowerAll(t)
  {
  }

  lemma LoweredOccurs(s: string, i: nat, t: string, word: string)
    requires IsWord(word) && SameButCase(t, word) && i + |t| <= |s| && s[i..i + |t|] == t
    ensures Contains(LowerAll(s), word)
  {
    WordIsLower(t, word);
    LoweredPart(s, i, t);
    assert OccursAt(LowerAll(s), word, i);
  }

  lemma PartIsContained(p: string, t: string, q: string, word: string)
    requires IsWord(word) && SameButCase(t, word)
    ensures Contains(LowerAll(Strip(p + (t + q))), word)
  {
    WordHasNoSpace(t, word);
    var i := PartIsInside(p, t, q);
    LoweredOccurs(Strip(p + (t + q)), i, t, word);
  }

  /** A part that neither starts nor ends with white space survives trimming. */
  lemma PartIsInside(p: string, t: string, q: string) returns (i: nat)
    requires t != "" && !IsSpace(t[0]) && !IsSpace(t[|t| - 1])
    ensures i + |t| <= |Strip(p + (t + q))| && Strip(p + (t + q))[i..i + |t|] == t
  {
    var before, after := StripSplits(p + (t + q));
    HeldIsInside(before, Strip(p + (t + q)), after, p, t, q);
    i := |p| - |before|;
  }

  lemma HeldIsContained(name: string, word: string)
    requires IsWord(word) && Holds(name, word)
    ensures Contains(LowerAll(Strip(name)), word)
  {
    var p, t, q :| name == p + (t + q) && SameButCase(t, word);
    PartIsContained(p, t, q, word);
  }

  /** A name is sensitive exactly if it holds one of the words. */
  lemma SensitiveExactly(name: string)
    ensures IsSensitive(name) <==> Names(name)
  {
    if IsSensitive(name) {
      var k :| 0 <= k < |SENSITIVE_FIELD_TOKENS| && Contains(LowerAll(Strip(name)), SENSITIVE_FIELD_TOKENS[k]);
      TokensAre(k);
      TokensAreWords(SENSITIVE_FIELD_TOKENS[k]);
      ContainedIsHeld(name, SENSITIVE_FIELD_TOKENS[k]);
    }
    if Names(name) {
      var word :| IsToken(word) && Holds(name, word);
      TokensAreWords(word);
      HeldIsContained(name, word);
      var k := TokenIsListed(word);
      assert Contains(LowerAll(Strip(name)), SENSITIVE_FIELD_TOKENS[k]);
    }
  }

  /** An entry whose name holds a word is dropped whole and counted once, whatever its value. */
  lemma NamedEntryIsDropped(r: Redactor, v: Value, i: nat)
    requires v.Dict? && i < |v.entries| && Names(v.entries[i].key)
    ensures Redacted(r, v).Dict? && forall e :: e in Redacted(r, v).entries ==> e.key != v.entries[i].key
    ensures DroppedAt(v, [Field(v.entries[i].key)]) && Losses(v)[i] == 1
  {
    SensitiveExactly(v.entries[i].key);
    forall e | e in Redacted(r, v).entries ensures !IsSensitive(e.key) {
      RedactedEntry(r, v, e);
    }
    assert Drops(v, i) && StepAt(v, i) == Field(v.entries[i].key);
  }

  /** Every other entry keeps its name and loses only what its own value loses. */
  lemma OtherEntryStays(r: Redactor, v: Value, i: nat)
    requires v.Dict? && i < |v.entries| && !Names(v.entries[i].key)
    ensures Losses(v)[i] == Dropped(v.entries[i].value)
    ensures Redacted(r, v).Dict? && exists e :: e in Redacted(r, v).entries && e.key == v.entries[i].key
  {
    SensitiveExactly(v.entries[i].key);
    assert !Drops(v, i);
    var w := Redacted(r, v);
    if Survives(v, i) {
      var j := ChildSurvives(r, v, i);
      assert w.entries[j] in w.entries && Field(w.entries[j].key) == StepAt(v, i);
    } else {
      SubtotalRecorded(r, v);
      assert Entry(COUNT_KEY, Number(Dropped(v))) in w.entries;
    }
  }
}
