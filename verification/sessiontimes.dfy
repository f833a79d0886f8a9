/** Who may issue and revoke session keys, when a key is accepted, and what its record shows. */
module SessionTimes {
  import opened Common
  import opened Sessions
  import opened SessionLaws
  import opened Text

  // ---------- acceptance over time ----------

  /** The record that decides the key. */
  ghost predicate DecidedBy(env: Env, file: File, key: string, record: Record) {
    exists i ::
      && 0 <= i < |Load(file)| && Load(file)[i] == Rec(record) && env.verify(Strip(key), record.keyHash)
      && forall j :: 0 <= j < i && Load(file)[j].Rec? ==> !env.verify(Strip(key), Load(file)[j].record.keyHash)
  }

  lemma DeciderIs(env: Env, file: File, key: string, record: Record)
    ensures var i := FirstVerifying(env, Load(file), Strip(key));
            DecidedBy(env, file, key, record) <==> i < |Load(file)| && Load(file)[i].record == record
  {
    var rows, i := Load(file), FirstVerifying(env, Load(file), Strip(key));
    if i < |rows| && rows[i].record == record {
      assert rows[i] == Rec(record);
      forall j | 0 <= j < i && rows[j].Rec? ensures !env.verify(Strip(key), rows[j].record.keyHash) {
        assert !Verifies(env, rows[j], Strip(key));
      }
    }
    if DecidedBy(env, file, key, record) {
      var n :| 0 <= n < |rows| && rows[n] == Rec(record) && env.verify(Strip(key), record.keyHash)
               && forall j :: 0 <= j < n && rows[j].Rec? ==> !env.verify(Strip(key), rows[j].record.keyHash);
      FirstVerifyingIs(env, rows, Strip(key), n);
    }
  }

  /** The decided key is accepted exactly before its time of expiry, if it has one, and unless it was revoked. */
  lemma DecidedKey(env: Env, file: File, key: string, record: Record, now: int)
    requires "pmk_sup_" <= Strip(key) && DecidedBy(env, file, key, record)
    ensures var answer, expiry := ValidateIn(env, file, key, now).answer, env.parseTime(record.expiresAt);
            && (answer == Failure(KeyRevoked) <==> record.revokedAt.Some?)
            && (answer == Failure(KeyExpired) <==> record.revokedAt.None? && expiry.Some? && expiry.value <= now)
            && (answer.Success? <==> record.revokedAt.None? && (expiry.None? || now < expiry.value))
            && (answer.Success? ==> answer.value == record.(lastUsedAt := Some(now)))
            && answer != Failure(InvalidKey)
  {
    DeciderIs(env, file, key, record);
  }

  /** Any other key is invalid. */
  lemma UndecidedKey(env: Env, file: File, key: string, now: int)
    ensures ValidateIn(env, file, key, now).answer == Failure(InvalidKey)
       <==> !("pmk_sup_" <= Strip(key)) || !exists record :: DecidedBy(env, file, key, record)
  {
    var rows, i := Load(file), FirstVerifying(env, Load(file), Strip(key));
    if i < |rows| {
      DeciderIs(env, file, key, rows[i].record);
    }
    if record :| DecidedBy(env, file, key, record) {
      DeciderIs(env, file, key, record);
    }
  }

  /** A refusal leaves the file as it is; an acceptance notes the time of use on the deciding record alone. */
  lemma ValidationTouches(env: Env, file: File, key: string, now: int)
    ensures var reply := ValidateIn(env, file, key, now);
            && (reply.answer.Failure? ==> reply.file == file)
            && (reply.answer.Success? ==>
                  exists i :: 0 <= i < |Load(file)| && reply.file == Stored(Load(file)[i := Rec(reply.answer.value)])
                              && Load(file)[i].Rec? && DecidedBy(env, file, key, Load(file)[i].record))
  {
    var rows, i := Load(file), FirstVerifying(env, Load(file), Strip(key));
    if ValidateIn(env, file, key, now).answer.Success? {
      DeciderIs(env, file, key, rows[i].record);
    }
  }

  /** A key that was refused as expired is refused at every later time, whatever happened to the store meanwhile. */
  lemma ExpiredForever(env: Env, file: File, ops: seq<Op>, key: string, now: int, later: int)
    requires ValidateIn(env, file, key, now).answer == Failure(KeyExpired) && now <= later
    ensures var answer := ValidateIn(env, Run(env, file, ops), key, later).answer;
            answer == Failure(KeyExpired) || answer == Failure(KeyRevoked)
  {
    var a, b, i := Load(file), Load(Run(env, file, ops)), FirstVerifying(env, Load(file), Strip(key));
    RunGrows(env, file, ops);
    DecidedByTheSame(env, a, b, Strip(key));
    assert Continues(a[i], b[i]);
    DeciderIs(env, file, key, a[i].record);
    DeciderIs(env, Run(env, file, ops), key, b[i].record);
    DecidedKey(env, file, key, a[i].record, now);
    DecidedKey(env, Run(env, file, ops), key, b[i].record, later);
  }

  /** A key that is accepted was acceptable at every earlier time. */
  lemma AcceptedBefore(env: Env, file: File, key: string, earlier: int, now: int)
    requires ValidateIn(env, file, key, now).answer.Success? && earlier <= now
    ensures ValidateIn(env, file, key, earlier).answer.Success?
  {
    var record := Load(file)[FirstVerifying(env, Load(file), Strip(key))].record;
    DeciderIs(env, file, key, record);
    DecidedKey(env, file, key, record, now);
    DecidedKey(env, file, key, record, earlier);
  }

  // ---------- who may do what ----------

  lemma FoldDecides(a: string, b: string)
    ensures Fold(a) == Fold(b) <==> SameButCase(Strip(a), Strip(b))
  {
    LowerAllDecides(Strip(a), Strip(b));
  }

  /** Only an owner supervisor manages keys, whatever the case of the level and the white space around it. */
  lemma ManagersAre(level: string)
    ensures MayManage(level) <==> SameButCase(Strip(level), "owner_supervisor")
  {
    var owner := "owner_supervisor";
    forall i | 0 <= i < |owner| ensures owner[i] !in CAPITALS {
      LowerIs(owner[i]);
    }
    LowerAllIs(Strip(level), owner);
  }

  /** Issuing is refused exactly to others and for levels without scopes, and then changes nothing. */
  lemma IssueRefusals(
    env: Env, file: File, level: string, issuer: string, request: Request, id: string, keyHash: string, now: int)
    ensures var reply := IssueTo(env, file, level, issuer, request, id, keyHash, now);
            var owner := SameButCase(Strip(level), "owner_supervisor");
            && (reply.answer == Failure(NotOwner) <==> !owner)
            && (reply.answer == Failure(UnknownLevel) <==> owner && env.scopesOf(LowerAll(Strip(request.level))) == [])
            && (reply.answer.Failure? ==>
                  reply.file == file && (reply.answer.error.NotOwner? || reply.answer.error.UnknownLevel?))
  {
    ManagersAre(level);
  }

  /** What an issued key's record shows of the request, and that it stands behind all earlier rows. */
  lemma IssuedRecordShows(
    env: Env, file: File, level: string, issuer: string, request: Request, id: string, keyHash: string, now: int)
    requires IssueTo(env, file, level, issuer, request, id, keyHash, now).answer.Success?
    ensures var reply := IssueTo(env, file, level, issuer, request, id, keyHash, now);
            var r := reply.answer.value;
            && reply.file == Stored(Load(file) + [Rec(r)])
            && r.id == id && r.keyHash == keyHash && r.createdAt == now && r.issuedBy == issuer
            && r.issuedTo == Strip(request.issuedTo) && r.sessionLabel == Strip(request.sessionLabel)
            && r.reason == Strip(request.reason) && r.expiresAt == Strip(request.expiresAt)
            && r.level == LowerAll(Strip(request.level)) && r.scopes == env.scopesOf(r.level) != []
            && r.revokedAt.None? && r.lastUsedAt.None?
  {
  }

  /** A revocation by id is recorded with its actor, its reason and its time; nothing else changes. */
  lemma RevokedRecordShows(file: File, level: string, actor: string, id: string, reason: string, now: int)
    ensures var reply, owner := RevokeIn(file, level, actor, id, reason, now),
                                SameButCase(Strip(level), "owner_supervisor");
            && (reply.answer == Failure(NotOwner) <==> !owner)
            && (reply.answer == Failure(KeyNotFound) <==>
                owner && forall i :: 0 <= i < |Load(file)| ==> !HasId(Load(file)[i], Strip(id)))
            && (reply.answer.Failure? ==> reply.file == file)
            && (reply.answer.Success? ==>
                  exists i ::
                    && 0 <= i < |Load(file)| && HasId(Load(file)[i], Strip(id))
                    && (forall j :: 0 <= j < i ==> !HasId(Load(file)[j], Strip(id)))
                    && reply.answer.value
                       == Load(file)[i].record.(
                          revokedAt := Some(now), revokedBy := actor, revocationReason := Strip(reason))
                    && reply.file == Stored(Load(file)[i := Rec(reply.answer.value)]))
  {
    ManagersAre(level);
    var rows, i := Load(file), FirstWithId(Load(file), Strip(id));
    if i < |rows| {
      assert HasId(rows[i], Strip(id));
    }
  }

  /** The records a revocation for identities concerns: those issued to one of them, up to case and white space. */
  lemma NamedAre(name: string, identities: seq<string>)
    ensures Fold(name) in Normalized(identities)
       <==> exists identity ::
              identity in identities && Strip(identity) != "" && SameButCase(Strip(name), Strip(identity))
  {
    forall identity ensures Fold(name) == Fold(identity) <==> SameButCase(Strip(name), Strip(identity)) {
      FoldDecides(name, identity);
    }
    if Fold(name) in Normalized(identities) {
      var identity :| identity in identities && Strip(identity) != "" && Fold(identity) == Fold(name);
    }
    if identity :| identity in identities && Strip(identity) != "" && SameButCase(Strip(name), Strip(identity)) {
      assert Fold(identity) == Fold(name);
    }
  }

  /** The arguments are refused in this order: no identity, no authority, no reason, a time without a zone. */
  lemma ArgumentErrors(identities: seq<string>, authority: string, reason: string, when: When, now: int)
    ensures var answer := Checked(identities, authority, reason, when, now);
            var anonymous := forall identity :: identity in identities ==> Strip(identity) == "";
            && (answer == Failure(NoIdentity) <==> anonymous)
            && (answer == Failure(NoAuthority) <==> !anonymous && Strip(authority) == "")
            && (answer == Failure(NoReason) <==> !anonymous && Strip(authority) != "" && Strip(reason) == "")
            && (answer == Failure(NaiveTime) <==>
                !anonymous && Strip(authority) != "" && Strip(reason) != "" && when.Naive?)
            && (answer.Success? <==> !anonymous && Strip(authority) != "" && Strip(reason) != "" && !when.Naive?)
  {
    if identity :| identity in identities && Strip(identity) != "" {
      assert Fold(identity) in Normalized(identities);
    }
  }

  /** With valid arguments only a store that cannot be read, or that holds a row that is no record, is refused. */
  lemma StoreErrors(
    file: File, identities: seq<string>, authority: string, reason: string, when: When, now: int)
    requires Checked(identities, authority, reason, when, now).Success?
    ensures var reply := RevokeForIn(file, identities, authority, reason, when, now);
            && (reply.answer == Failure(AuthorityInvalid) <==>
                file.Corrupt? || (file.Stored? && exists row :: row in file.rows && row.Junk?))
            && (reply.answer.Failure? ==> reply.answer.error == AuthorityInvalid && reply.file == file)
            && (file.Missing? ==> reply == CountReply(Missing, Success(0)))
  {
    if file.Stored? {
      if row :| row in file.rows && row.Junk? {
        assert !AllRecords(file.rows);
      }
      if !AllRecords(file.rows) {
        var i :| 0 <= i < |file.rows| && !file.rows[i].Rec?;
        assert file.rows[i] in file.rows && file.rows[i].Junk?;
      }
    }
  }

  /** A store that is absent or cannot be read holds no key; the first one issued is its only row. */
  lemma UnreadableIsEmpty(
    env: Env, file: File, level: string, issuer: string, request: Request, id: string, keyHash: string, key: string,
    now: int)
    requires !file.Stored?
    ensures ValidateIn(env, file, key, now) == Reply(file, Failure(InvalidKey))
    ensures var reply := IssueTo(env, file, level, issuer, request, id, keyHash, now);
            reply.answer.Success? ==> reply.file == Stored([Rec(reply.answer.value)])
    ensures MayManage(level) ==> RevokeIn(file, level, issuer, id, "", now) == Reply(file, Failure(KeyNotFound))
  {
  }
}
