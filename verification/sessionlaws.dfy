/** What holds over every sequential run of the supervisor session store. */
module SessionLaws {
  import opened Common
  import opened Sessions
  import opened Text

  datatype Op =
    | Issue(actorLevel: string, issuer: string, request: Request, id: string, keyHash: string, now: int)
    | Validate(key: string, now: int)
    | Revoke(actorLevel: string, actor: string, id: string, reason: string, now: int)
    | RevokeFor(identities: seq<string>, authority: string, reason: string, when: When, now: int)

  function Apply(env: Env, file: File, op: Op): File {
    match op
    case Issue(level, issuer, request, id, hash, now) => IssueTo(env, file, level, issuer, request, id, hash, now).file
    case Validate(key, now) => ValidateIn(env, file, key, now).file
    case Revoke(level, actor, id, reason, now) => RevokeIn(file, level, actor, id, reason, now).file
    case RevokeFor(identities, authority, reason, when, now) =>
      RevokeForIn(file, identities, authority, reason, when, now).file
  }

  function Run(env: Env, file: File, ops: seq<Op>): File {
    if ops == [] then file else Apply(env, Run(env, file, ops[..|ops| - 1]), ops[|ops| - 1])
  }

  // ---------- records stay, and stay revoked ----------

  /** The same record later on: only the stamps may differ, and a revocation is never taken back. */
  ghost predicate Continues(a: Row, b: Row) {
    if a.Junk? then b.Junk?
    else
      && b.Rec?
      && b.record == a.record.(
                     revokedAt := b.record.revokedAt, revokedBy := b.record.revokedBy,
                     revocationReason := b.record.revocationReason, lastUsedAt := b.record.lastUsedAt)
      && (a.record.revokedAt.Some? ==> b.record.revokedAt.Some?)
      && (a.record.lastUsedAt.Some? ==> b.record.lastUsedAt.Some?)
  }

  ghost predicate Grows(a: seq<Row>, b: seq<Row>) {
    |a| <= |b| && forall i :: 0 <= i < |a| ==> Continues(a[i], b[i])
  }

  lemma GrowsThrough(a: seq<Row>, b: seq<Row>, c: seq<Row>)
    requires Grows(a, b) && Grows(b, c)
    ensures Grows(a, c)
  {
    forall i | 0 <= i < |a| ensures Continues(a[i], c[i]) {
      assert Continues(a[i], b[i]) && Continues(b[i], c[i]);
    }
  }

  lemma OneRowGrows(rows: seq<Row>, i: nat, row: Row)
    requires i < |rows| && Continues(rows[i], row)
    ensures Grows(rows, rows[i := row])
  {
  }

  lemma StepGrows(env: Env, file: File, op: Op)
    ensures Grows(Load(file), Load(Apply(env, file, op)))
  {
    var rows, rows' := Load(file), Load(Apply(env, file, op));
    match op {
      case Issue(_, _, _, _, _, _) =>
      case Validate(key, now) =>
        var i := FirstVerifying(env, rows, Strip(key));
        if rows' != rows {
          OneRowGrows(rows, i, rows'[i]);
        }
      case Revoke(_, _, id, _, _) =>
        var i := FirstWithId(rows, Strip(id));
        if rows' != rows {
          OneRowGrows(rows, i, rows'[i]);
        }
      case RevokeFor(_, _, _, _, _) =>
    }
  }

  /** No run removes, reorders or rewrites a record, and none unsets a revocation. */
  lemma {:induction false} RunGrows(env: Env, file: File, ops: seq<Op>)
    ensures Grows(Load(file), Load(Run(env, file, ops)))
  {
    if ops != [] {
      var before := Run(env, file, ops[..|ops| - 1]);
      RunGrows(env, file, ops[..|ops| - 1]);
      StepGrows(env, before, ops[|ops| - 1]);
      GrowsThrough(Load(file), Load(before), Load(Run(env, file, ops)));
    }
  }

  // ---------- a revoked key is dead ----------

  /** The record that decides the key is revoked. */
  ghost predicate Dead(env: Env, file: File, key: string) {
    var i := FirstVerifying(env, Load(file), Strip(key));
    i < |Load(file)| && Load(file)[i].record.revokedAt.Some?
  }

  lemma DecidedByTheSame(env: Env, a: seq<Row>, b: seq<Row>, key: string)
    requires Grows(a, b) && FirstVerifying(env, a, key) < |a|
    ensures FirstVerifying(env, b, key) == FirstVerifying(env, a, key)
  {
    var i := FirstVerifying(env, a, key);
    assert Continues(a[i], b[i]);
    assert forall j :: 0 <= j < i ==> Continues(a[j], b[j]);
    FirstVerifyingIs(env, b, key, i);
  }

  /** Whatever happens afterwards, a dead key stays dead and is refused at any time. */
  lemma DeadForever(env: Env, file: File, ops: seq<Op>, key: string, now: int)
    requires Dead(env, file, key)
    ensures Dead(env, Run(env, file, ops), key)
    ensures ValidateIn(env, Run(env, file, ops), key, now).answer.Failure?
  {
    RunGrows(env, file, ops);
    var a, b := Load(file), Load(Run(env, file, ops));
    DecidedByTheSame(env, a, b, Strip(key));
    assert Continues(a[FirstVerifying(env, a, Strip(key))], b[FirstVerifying(env, a, Strip(key))]);
  }

  /** A key is refused as revoked exactly when it carries the prefix and is dead. */
  lemma RefusedExactlyWhenDead(env: Env, file: File, key: string, now: int)
    ensures ValidateIn(env, file, key, now).answer == Failure(KeyRevoked)
       <==> KEY_PREFIX <= Strip(key) && Dead(env, file, key)
  {
  }

  /** Revoking the record that decides a key kills the key: by its id, if no earlier record has that id. */
  lemma RevokedByIdIsDead(
    env: Env, file: File, key: string, id: string, level: string, actor: string, reason: string, now: int)
    requires var i := FirstVerifying(env, Load(file), Strip(key));
             i < |Load(file)| && FirstWithId(Load(file), Strip(id)) == i
    requires MayManage(level)
    ensures RevokeIn(file, level, actor, id, reason, now).answer.Success?
    ensures Dead(env, RevokeIn(file, level, actor, id, reason, now).file, key)
  {
    var op := Revoke(level, actor, id, reason, now);
    StepGrows(env, file, op);
    DecidedByTheSame(env, Load(file), Load(Apply(env, file, op)), Strip(key));
  }

  /** Revoking for an identity kills every key that a record issued to that identity decides. */
  lemma RevokedForIdentityIsDead(
    env: Env, file: File, key: string, identities: seq<string>, authority: string, reason: string, when: When,
    now: int)
    requires var i := FirstVerifying(env, Load(file), Strip(key));
             i < |Load(file)| && Fold(Load(file)[i].record.issuedTo) in Normalized(identities)
    requires RevokeForIn(file, identities, authority, reason, when, now).answer.Success?
    ensures Dead(env, RevokeForIn(file, identities, authority, reason, when, now).file, key)
  {
    var op := RevokeFor(identities, authority, reason, when, now);
    var rows, rows' := Load(file), Load(Apply(env, file, op));
    StepGrows(env, file, op);
    DecidedByTheSame(env, rows, rows', Strip(key));
    var i := FirstVerifying(env, rows, Strip(key));
    assert rows'[i] == RevokeRow(rows[i], Checked(identities, authority, reason, when, now).value);
  }

  /**
    A key issued under a new hash is decided by its own record, and valid exactly before the requested time of expiry,
    or for good if that names no time.
   */
  lemma IssuedKeyValidates(
    env: Env, file: File, level: string, issuer: string, request: Request, id: string, keyHash: string, key: string,
    now: int, later: int)
    requires IssueTo(env, file, level, issuer, request, id, keyHash, now).answer.Success?
    requires Strip(key) == key && KEY_PREFIX <= key && env.verify(key, keyHash)
    requires FirstVerifying(env, Load(file), key) == |Load(file)|
    ensures var issued := IssueTo(env, file, level, issuer, request, id, keyHash, now);
            var reply := ValidateIn(env, issued.file, key, later);
            && FirstVerifying(env, Load(issued.file), key) == |Load(file)|
            && var expiry := env.parseTime(Strip(request.expiresAt));
            && (reply.answer.Success? <==> expiry.None? || later < expiry.value)
            && (reply.answer.Success? ==> reply.answer.value == issued.answer.value.(lastUsedAt := Some(later)))
  {
    var issued := IssueTo(env, file, level, issuer, request, id, keyHash, now);
    FirstVerifyingIs(env, Load(issued.file), key, |Load(file)|);
  }

  // ---------- revocation for an identity ----------

  function Active(rows: seq<Row>): nat {
    if rows == [] then 0
    else Active(rows[..|rows| - 1]) + if rows[|rows| - 1].Rec? && rows[|rows| - 1].record.revokedAt.None? then 1 else 0
  }

  lemma {:induction false} AffectedAreNewlyRevoked(rows: seq<Row>, revocation: Revocation)
    ensures Active(RevokeRows(rows, revocation)) + Affected(rows, revocation) == Active(rows)
  {
    if rows != [] {
      var front := rows[..|rows| - 1];
      AffectedAreNewlyRevoked(front, revocation);
      assert RevokeRows(rows, revocation)[..|rows| - 1] == RevokeRows(front, revocation);
    }
  }

  lemma {:induction false} NoneConcerned(rows: seq<Row>, revocation: Revocation)
    requires forall i :: 0 <= i < |rows| ==> !Concerns(rows[i], revocation)
    ensures Affected(rows, revocation) == 0
  {
    if rows != [] {
      NoneConcerned(rows[..|rows| - 1], revocation);
    }
  }

  /** What one row looks like after a revocation for `who`. */
  ghost predicate RevokedAs(
    before: Row, after: Row, who: set<string>, authority: string, reason: string, stamp: int)
  {
    if before.Rec? && before.record.revokedAt.None? && Fold(before.record.issuedTo) in who
    then
      after
      == Rec(before.record.(revokedAt := Some(stamp), revokedBy := authority, revocationReason := reason))
    else after == before
  }

  /**
    The answer is the number of records that stop being active; those already revoked keep their stamp, those of
    other identities are untouched, and nobody named has an active record left.
   */
  lemma RevokesExactlyTheActive(
    file: File, identities: seq<string>, authority: string, reason: string, when: When, now: int)
    requires RevokeForIn(file, identities, authority, reason, when, now).answer.Success?
    ensures var reply := RevokeForIn(file, identities, authority, reason, when, now);
            var a, b := Load(file), Load(reply.file);
            && Active(b) + reply.answer.value == Active(a) && |a| == |b|
            && forall i :: 0 <= i < |a| ==>
                             RevokedAs(
                               a[i], b[i], Normalized(identities), Strip(authority), Strip(reason),
                               if when.Aware? then when.stamp else now)
  {
    if file.Stored? {
      AffectedAreNewlyRevoked(file.rows, Checked(identities, authority, reason, when, now).value);
    }
  }

  /** Revoking again for identities already covered, whoever asks and whenever, finds nothing and changes nothing. */
  lemma SecondRevocationIsIdle(
    file: File, identities: seq<string>, authority: string, reason: string, when: When, now: int,
    again: seq<string>, authority': string, reason': string, when': When, now': int)
    requires RevokeForIn(file, identities, authority, reason, when, now).answer.Success?
    requires Normalized(again) <= Normalized(identities)
    requires Checked(again, authority', reason', when', now').Success?
    ensures var first := RevokeForIn(file, identities, authority, reason, when, now).file;
            RevokeForIn(first, again, authority', reason', when', now') == CountReply(first, Success(0))
  {
    if file.Stored? {
      var rows := RevokeRows(file.rows, Checked(identities, authority, reason, when, now).value);
      var revocation := Checked(again, authority', reason', when', now').value;
      NoneConcerned(rows, revocation);
      NoneAffected(rows, revocation);
    }
  }

  // ---------- the stamp of a revoked record ----------

  ghost predicate Stamped(file: File, i: nat, stamp: int) {
    i < |Load(file)| && Load(file)[i].Rec? && Load(file)[i].record.revokedAt == Some(stamp)
  }

  /** The operation revokes by id, and the i-th record is the first one with that id. */
  predicate Restamps(file: File, op: Op, i: nat) {
    op.Revoke? && MayManage(op.actorLevel) && i < |Load(file)| && FirstWithId(Load(file), Strip(op.id)) == i
  }

  /** Only a revocation by id writes a new stamp on a revoked record: that of its own time. */
  lemma StampAfterOne(env: Env, file: File, op: Op, i: nat, stamp: int)
    requires Stamped(file, i, stamp)
    ensures Stamped(Apply(env, file, op), i, if Restamps(file, op, i) then op.now else stamp)
  {
    match op
    case Issue(_, _, _, _, _, _) =>
    case Validate(_, _) =>
    case Revoke(_, _, _, _, _) =>
    case RevokeFor(_, _, _, _, _) =>
  }

  /** So a revoked record keeps its stamp unless it is revoked by id at another time. */
  lemma KeepsStampExactly(env: Env, file: File, op: Op, i: nat, stamp: int)
    requires Stamped(file, i, stamp)
    ensures Stamped(Apply(env, file, op), i, stamp) <==> !Restamps(file, op, i) || op.now == stamp
  {
    StampAfterOne(env, file, op, i, stamp);
  }

  /** The time of the last revocation by id of the i-th record, or its first stamp. */
  function LastStamp(env: Env, file: File, ops: seq<Op>, i: nat, stamp: int): int {
    if ops == [] then stamp
    else
      var front, last := ops[..|ops| - 1], ops[|ops| - 1];
      if Restamps(Run(env, file, front), last, i) then last.now else LastStamp(env, file, front, i, stamp)
  }

  /** Over every run a revoked record bears the time of its last revocation by id, and its first stamp without one. */
  lemma {:induction false} StampAfterRun(env: Env, file: File, ops: seq<Op>, i: nat, stamp: int)
    requires Stamped(file, i, stamp)
    ensures Stamped(Run(env, file, ops), i, LastStamp(env, file, ops, i, stamp))
  {
    if ops != [] {
      var front := ops[..|ops| - 1];
      StampAfterRun(env, file, front, i, stamp);
      StampAfterOne(env, Run(env, file, front), ops[|ops| - 1], i, LastStamp(env, file, front, i, stamp));
    }
  }

  lemma {:induction false} NeverRestamped(env: Env, file: File, ops: seq<Op>, i: nat, stamp: int)
    requires forall n :: 0 <= n < |ops| ==> !Restamps(Run(env, file, ops[..n]), ops[n], i)
    ensures LastStamp(env, file, ops, i, stamp) == stamp
  {
    if ops != [] {
      var front := ops[..|ops| - 1];
      forall n | 0 <= n < |front| ensures !Restamps(Run(env, file, front[..n]), front[n], i) {
        assert front[..n] == ops[..n];
      }
      NeverRestamped(env, file, front, i, stamp);
    }
  }

  /** A run without a revocation by id of the record keeps the first stamp. */
  lemma KeepsStampThroughRun(env: Env, file: File, ops: seq<Op>, i: nat, stamp: int)
    requires Stamped(file, i, stamp)
    requires forall n :: 0 <= n < |ops| ==> !Restamps(Run(env, file, ops[..n]), ops[n], i)
    ensures Stamped(Run(env, file, ops), i, stamp)
  {
    StampAfterRun(env, file, ops, i, stamp);
    NeverRestamped(env, file, ops, i, stamp);
  }

  /** A store whose one record is revoked. */
  function RevokedStore(stamp: int): File {
    Stored([Rec(Record("id", "", "", [], "", "", "", "", 0, "", Some(stamp), "", "", None))])
  }

  /** An owner who revokes it again by its id at another time replaces the stamp. */
  lemma RevokedAgainLosesStamp(env: Env, stamp: int, now: int)
    requires stamp != now
    ensures Stamped(RevokedStore(stamp), 0, stamp)
    ensures !Stamped(Apply(env, RevokedStore(stamp), Revoke("owner_supervisor", "", "id", "", now)), 0, stamp)
  {
    var op := Revoke("owner_supervisor", "", "id", "", now);
    OwnerManages();
    StrippedStays("id");
    FirstWithIdIs(Load(RevokedStore(stamp)), "id", 0);
    KeepsStampExactly(env, RevokedStore(stamp), op, 0, stamp);
  }

  lemma OwnerManages()
    ensures MayManage("owner_supervisor")
  {
    StrippedStays("owner_supervisor");
  }
}
