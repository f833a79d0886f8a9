/** The store of supervisor session keys: issue, validate, revoke by id, revoke for an identity. */
module Sessions {
  import opened Common
  import opened Text

  datatype SessionError =
    | NotOwner | UnknownLevel | InvalidKey | KeyRevoked | KeyExpired | KeyNotFound
    | NoIdentity | NoAuthority | NoReason | NaiveTime | AuthorityInvalid

  /** A stored record; a time stamp that is absent stands for an empty one. */
  datatype Record = Record(
    id: string, keyHash: string, level: string, scopes: seq<string>, issuedBy: string, issuedTo: string,
    sessionLabel: string, reason: string, createdAt: int, expiresAt: string,
    revokedAt: Option<int>, revokedBy: string, revocationReason: string, lastUsedAt: Option<int>)

  /** An element of the stored list; `Junk` is anything that is not a record. */
  datatype Row = Rec(record: Record) | Junk

  /** The file: absent, not readable as a store, or a list of rows. */
  datatype File = Missing | Corrupt | Stored(rows: seq<Row>)

  /** What the store asks of its surroundings: key verification, time parsing and the scopes of a level. */
  datatype Env = Env(
    verify: (string, string) -> bool, parseTime: string -> Option<int>, scopesOf: string -> seq<string>)

  datatype When = Unstated | Aware(stamp: int) | Naive

  const KEY_PREFIX := "pmk_sup_"

  function Fold(text: string): string {
    LowerAll(Strip(text))
  }

  predicate MayManage(level: string) {
    Fold(level) == "owner_supervisor"
  }

  /** The rows as issue, validate and revoke by id read them. */
  function Load(file: File): seq<Row> {
    if file.Stored? then file.rows else []
  }

  // ---------- finding a record ----------

  predicate Verifies(env: Env, row: Row, key: string) {
    row.Rec? && env.verify(key, row.record.keyHash)
  }

  predicate HasId(row: Row, id: string) {
    row.Rec? && row.record.id == id
  }

  /** The first row that verifies the key, or the number of rows. */
  function FirstVerifying(env: Env, rows: seq<Row>, key: string): (i: nat)
    ensures i <= |rows| && (i < |rows| ==> Verifies(env, rows[i], key))
    ensures forall j :: 0 <= j < i ==> !Verifies(env, rows[j], key)
  {
    if rows == [] || Verifies(env, rows[0], key) then 0 else 1 + FirstVerifying(env, rows[1..], key)
  }

  function FirstWithId(rows: seq<Row>, id: string): (i: nat)
    ensures i <= |rows| && (i < |rows| ==> HasId(rows[i], id))
    ensures forall j :: 0 <= j < i ==> !HasId(rows[j], id)
  {
    if rows == [] || HasId(rows[0], id) then 0 else 1 + FirstWithId(rows[1..], id)
  }

  // ---------- the operations on the file ----------

  datatype Reply = Reply(file: File, answer: Result<Record, SessionError>)

  datatype CountReply = CountReply(file: File, answer: Result<nat, SessionError>)

  datatype Request = Request(level: string, issuedTo: string, sessionLabel: string, reason: string, expiresAt: string)

  function IssueTo(
    env: Env, file: File, actorLevel: string, issuer: string, request: Request, id: string, keyHash: string, now: int)
    : Reply
  {
    var scopes := env.scopesOf(Fold(request.level));
    if !MayManage(actorLevel) then Reply(file, Failure(NotOwner))
    else if scopes == [] then Reply(file, Failure(UnknownLevel))
    else
      var record := Record(
                      id, keyHash, Fold(request.level), scopes, issuer, Strip(request.issuedTo),
                      Strip(request.sessionLabel),
                      Strip(request.reason), now, Strip(request.expiresAt), None, "", "", None);
      Reply(Stored(Load(file) + [Rec(record)]), Success(record))
  }

  predicate Expired(env: Env, record: Record, now: int) {
    var expiry := env.parseTime(record.expiresAt);
    expiry.Some? && expiry.value <= now
  }

  function ValidateIn(env: Env, file: File, key: string, now: int): Reply {
    var candidate := Strip(key);
    var rows := Load(file);
    var i := FirstVerifying(env, rows, candidate);
    if !(KEY_PREFIX <= candidate) || i == |rows| then Reply(file, Failure(InvalidKey))
    else if rows[i].record.revokedAt.Some? then Reply(file, Failure(KeyRevoked))
    else if Expired(env, rows[i].record, now) then Reply(file, Failure(KeyExpired))
    else
      var used := rows[i].record.(lastUsedAt := Some(now));
      Reply(Stored(rows[i := Rec(used)]), Success(used))
  }

  function RevokeIn(file: File, actorLevel: string, actor: string, id: string, reason: string, now: int): Reply {
    var rows := Load(file);
    var i := FirstWithId(rows, Strip(id));
    if !MayManage(actorLevel) then Reply(file, Failure(NotOwner))
    else if i == |rows| then Reply(file, Failure(KeyNotFound))
    else
      var revoked := rows[i].record.(revokedAt := Some(now), revokedBy := actor, revocationReason := Strip(reason));
      Reply(Stored(rows[i := Rec(revoked)]), Success(revoked))
  }

  /** Whom a revocation is for, by whom, why and when. */
  datatype Revocation = Revocation(who: set<string>, authority: string, reason: string, stamp: int)

  predicate Concerns(row: Row, revocation: Revocation) {
    row.Rec? && row.record.revokedAt.None? && Fold(row.record.issuedTo) in revocation.who
  }

  function RevokeRow(row: Row, revocation: Revocation): Row {
    if Concerns(row, revocation) then
      Rec(row.record.(
          revokedAt := Some(revocation.stamp), revokedBy := revocation.authority,
          revocationReason := revocation.reason))
    else row
  }

  function RevokeRows(rows: seq<Row>, revocation: Revocation): (after: seq<Row>)
    ensures |after| == |rows| && forall i :: 0 <= i < |rows| ==> after[i] == RevokeRow(rows[i], revocation)
  {
    seq(|rows|, i requires 0 <= i < |rows| => RevokeRow(rows[i], revocation))
  }

  function Affected(rows: seq<Row>, revocation: Revocation): nat {
    if rows == [] then 0
    else
      Affected(rows[..|rows| - 1], revocation) + if Concerns(rows[|rows| - 1], revocation) then 1 else 0
  }

  predicate AllRecords(rows: seq<Row>) {
    forall i :: 0 <= i < |rows| ==> rows[i].Rec?
  }

  function Normalized(identities: seq<string>): set<string> {
    set identity | identity in identities && Strip(identity) != "" :: Fold(identity)
  }

  /** The arguments of a revocation for an identity, checked in the order of the source. */
  function Checked(identities: seq<string>, authority: string, reason: string, when: When, now: int)
    : Result<Revocation, SessionError>
  {
    if Normalized(identities) == {} then Failure(NoIdentity)
    else if Strip(authority) == "" then Failure(NoAuthority)
    else if Strip(reason) == "" then Failure(NoReason)
    else if when.Naive? then Failure(NaiveTime)
    else
      Success(Revocation(
                Normalized(identities), Strip(authority), Strip(reason), if when.Aware? then when.stamp else now))
  }

  function RevokeAll(file: File, revocation: Revocation): CountReply {
    match file
    case Missing => CountReply(file, Success(0))
    case Corrupt => CountReply(file, Failure(AuthorityInvalid))
    case Stored(rows) =>
      if !AllRecords(rows) then CountReply(file, Failure(AuthorityInvalid))
      else CountReply(Stored(RevokeRows(rows, revocation)), Success(Affected(rows, revocation)))
  }

  function RevokeForIn(
    file: File, identities: seq<string>, authority: string, reason: string, when: When, now: int): CountReply
  {
    var revocation := Checked(identities, authority, reason, when, now);
    if revocation.Failure? then CountReply(file, Failure(revocation.error)) else RevokeAll(file, revocation.value)
  }

  // ---------- the store ----------

  lemma {:induction false} FirstVerifyingIs(env: Env, rows: seq<Row>, key: string, i: nat)
    requires i <= |rows| && (i < |rows| ==> Verifies(env, rows[i], key))
    requires forall j :: 0 <= j < i ==> !Verifies(env, rows[j], key)
    ensures FirstVerifying(env, rows, key) == i
  {
  }

  lemma {:induction false} FirstWithIdIs(rows: seq<Row>, id: string, i: nat)
    requires i <= |rows| && (i < |rows| ==> HasId(rows[i], id))
    requires forall j :: 0 <= j < i ==> !HasId(rows[j], id)
    ensures FirstWithId(rows, id) == i
  {
  }

  class SessionStore {
    const env: Env
    var file: File

    constructor (env: Env, file: File)
      ensures this.env == env && this.file == file
    {
      this.env, this.file := env, file;
    }

    /** `key` and `keyHash` are the freshly drawn raw key and its salted hash, `id` the fresh identifier. */
    method Issue(actorLevel: string, issuer: string, request: Request, id: string, keyHash: string, now: int)
      returns (answer: Result<Record, SessionError>)
      modifies this
      ensures Reply(file, answer) == IssueTo(env, old(file), actorLevel, issuer, request, id, keyHash, now)
    {
      if !MayManage(actorLevel) {
        return Failure(NotOwner);
      }
      var level := Fold(request.level);
      var scopes := env.scopesOf(level);
      if scopes == [] {
        return Failure(UnknownLevel);
      }
      var record := Record(
        id, keyHash, level, scopes, issuer, Strip(request.issuedTo), Strip(request.sessionLabel),
        Strip(request.reason), now, Strip(request.expiresAt), None, "", "", None);
      var rows := Load(file);
      rows := rows + [Rec(record)];
      file := Stored(rows);
      answer := Success(record);
    }

    method Validate(key: string, now: int) returns (answer: Result<Record, SessionError>)
      modifies this
      ensures Reply(file, answer) == ValidateIn(env, old(file), key, now)
    {
      var candidate := Strip(key);
      if !(KEY_PREFIX <= candidate) {
        return Failure(InvalidKey);
      }
      var rows := Load(file);
      for i := 0 to |rows|
        invariant file == old(file)
        invariant forall j :: 0 <= j < i ==> !Verifies(env, rows[j], candidate)
      {
        if rows[i].Rec? && env.verify(candidate, rows[i].record.keyHash) {
          FirstVerifyingIs(env, rows, candidate, i);
          var record := rows[i].record;
          if record.revokedAt.Some? {
            return Failure(KeyRevoked);
          }
          if Expired(env, record, now) {
            return Failure(KeyExpired);
          }
          record := record.(lastUsedAt := Some(now));
          file := Stored(rows[i := Rec(record)]);
          return Success(record);
        }
      }
      FirstVerifyingIs(env, rows, candidate, |rows|);
      answer := Failure(InvalidKey);
    }

    method Revoke(actorLevel: string, actor: string, id: string, reason: string, now: int)
      returns (answer: Result<Record, SessionError>)
      modifies this
      ensures Reply(file, answer) == RevokeIn(old(file), actorLevel, actor, id, reason, now)
    {
      if !MayManage(actorLevel) {
        return Failure(NotOwner);
      }
      var requested := Strip(id);
      var rows := Load(file);
      for i := 0 to |rows|
        invariant file == old(file)
        invariant forall j :: 0 <= j < i ==> !HasId(rows[j], requested)
      {
        if rows[i].Rec? && rows[i].record.id == requested {
          FirstWithIdIs(rows, requested, i);
          var record := rows[i].record;
          record := record.(revokedAt := Some(now), revokedBy := actor, revocationReason := Strip(reason));
          file := Stored(rows[i := Rec(record)]);
          return Success(record);
        }
      }
      FirstWithIdIs(rows, requested, |rows|);
      answer := Failure(KeyNotFound);
    }

    /** The rows change in memory first; a row that is not a record leaves the file as it was. */
    method RevokeForIdentity(identities: seq<string>, authority: string, reason: string, when: When, now: int)
      returns (answer: Result<nat, SessionError>)
      modifies this
      ensures CountReply(file, answer) == RevokeForIn(old(file), identities, authority, reason, when, now)
    {
      var checked := Checked(identities, authority, reason, when, now);
      if checked.Failure? {
        return Failure(checked.error);
      }
      if file.Missing? {
        return Success(0);
      }
      if file.Corrupt? {
        return Failure(AuthorityInvalid);
      }
      var revocation := checked.value;
      var rows, count, ok := RevokeLoaded(file.rows, revocation);
      if !ok {
        return Failure(AuthorityInvalid);
      }
      if count > 0 {
        file := Stored(rows);
      } else {
        NoneAffected(file.rows, revocation);
      }
      answer := Success(count);
    }
  }

  /** The loop over the loaded rows: `ok` is false if it meets one that is not a record. */
  method RevokeLoaded(before: seq<Row>, revocation: Revocation) returns (rows: seq<Row>, count: nat, ok: bool)
    ensures ok == AllRecords(before)
    ensures ok ==> rows == RevokeRows(before, revocation) && count == Affected(before, revocation)
  {
    rows, count := before, 0;
    for i := 0 to |before|
      invariant rows == RevokeRows(before[..i], revocation) + before[i..]
      invariant AllRecords(before[..i]) && count == Affected(before[..i], revocation)
    {
      RevokeNext(before, revocation, i);
      if before[i].Junk? {
        return rows, count, false;
      }
      if Concerns(before[i], revocation) {
        rows := rows[i := RevokeRow(before[i], revocation)];
        count := count + 1;
      }
    }
    assert before[..|before|] == before;
    ok := true;
  }

  lemma RevokeNext(before: seq<Row>, revocation: Revocation, i: nat)
    requires i < |before|
    ensures RevokeRows(before[..i + 1], revocation) + before[i + 1..]
         == (RevokeRows(before[..i], revocation) + before[i..])[i := RevokeRow(before[i], revocation)]
    ensures Affected(before[..i + 1], revocation)
         == Affected(before[..i], revocation) + if Concerns(before[i], revocation) then 1 else 0
    ensures (RevokeRows(before[..i], revocation) + before[i..])[i] == before[i]
  {
    assert before[..i + 1][..i] == before[..i];
  }

  lemma {:induction false} NoneAffected(rows: seq<Row>, revocation: Revocation)
    requires Affected(rows, revocation) == 0
    ensures RevokeRows(rows, revocation) == rows
  {
    if rows != [] {
      NoneAffected(rows[..|rows| - 1], revocation);
      var last := rows[|rows| - 1];
      assert rows == rows[..|rows| - 1] + [last];
    }
  }
}
