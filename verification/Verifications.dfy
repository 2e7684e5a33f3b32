/** Users, their email verifications and the outbox rows written with them
    (internal/adapter/repository/postgres/auth_repository.go). */
module Verifications {
  import opened Core
  import opened OutboxTable

  datatype UserRow = UserRow(email: string, createdAt: Time, verifiedAt: Option<Time>)

  datatype VerificationRow = VerificationRow(
    userId: Uuid, tokenHash: Hash, ciphertext: Option<Bytes>, expiresAt: Time,
    usedAt: Option<Time>, revokedAt: Option<Time>, createdAt: Time)

  /** `emails` and `hashes` are the unique indexes on `lower(email)` and on `token_hash`. */
  datatype Tables = Tables(
    users: map<Uuid, UserRow>,
    emails: map<string, Uuid>,
    verifications: map<Uuid, VerificationRow>,
    hashes: map<Hash, Uuid>,
    outbox: Rows)

  const EMPTY := Tables(map[], map[], map[], map[], map[])

  const COOLDOWN: Time := MINUTE
  const WINDOW: Time := HOUR
  const HOURLY_LIMIT := 5

  datatype VerificationInput = VerificationInput(id: Uuid, tokenHash: Hash, ciphertext: Bytes, expiresAt: Time)

  datatype EventInput = EventInput(
    id: Uuid, eventType: string, payload: Payload, createdAt: Time, availableAt: Time)

  datatype CreateUserInput = CreateUserInput(
    id: Uuid, email: string, createdAt: Time, verification: VerificationInput, event: EventInput)

  datatype ResendInput = ResendInput(
    email: string, requestedAt: Time, verification: VerificationInput, event: EventInput)

  function LowerChar(c: char): char {
    if 'A' <= c <= 'Z' then (c as int + 32) as char else c
  }

  /** `lower(email)`, for ASCII letters. */
  function Lower(s: string): (l: string)
    ensures |l| == |s|
  {
    seq(|s|, i requires 0 <= i < |s| => LowerChar(s[i]))
  }

  predicate Unsettled(v: VerificationRow) {
    v.usedAt.None? && v.revokedAt.None?
  }

  /** Unused, unrevoked and unexpired: `ConfirmEmail` would take it. */
  predicate Live(v: VerificationRow, now: Time) {
    Unsettled(v) && now < v.expiresAt
  }

  // ---------------------------------------------------------------------------------------
  // The transactions as atomic steps
  // ---------------------------------------------------------------------------------------

  function NewEvent(e: EventInput): Row {
    Row(e.eventType, e.payload, e.createdAt, e.availableAt, None, None, None, None, 0, None)
  }

  /** The primary keys, the unique hash and the CHECK on the payload let both rows in. */
  predicate Insertable(db: Tables, v: VerificationInput, e: EventInput) {
    && v.id !in db.verifications && v.tokenHash !in db.hashes
    && e.id !in db.outbox && e.payload.Object?
  }

  /** Insert a verification and its outbox event. */
  function Inserted(db: Tables, userId: Uuid, createdAt: Time, v: VerificationInput, e: EventInput): Tables {
    db.(verifications := db.verifications[v.id :=
          VerificationRow(userId, v.tokenHash, Some(v.ciphertext), v.expiresAt, None, None, createdAt)],
        hashes := db.hashes[v.tokenHash := v.id],
        outbox := db.outbox[e.id := NewEvent(e)])
  }

  datatype CreateReply = UserCreated | EmailExists | CreateFailed

  function CreateUser(db: Tables, input: CreateUserInput): (Tables, CreateReply) {
    if input.id in db.users then (db, CreateFailed)
    else if Lower(input.email) in db.emails then (db, EmailExists)
    else if !Insertable(db, input.verification, input.event) then (db, CreateFailed)
    else
      (Inserted(
         db.(users := db.users[input.id := UserRow(input.email, input.createdAt, None)],
             emails := db.emails[Lower(input.email) := input.id]),
         input.id, input.createdAt, input.verification, input.event),
       UserCreated)
  }

  datatype ConfirmReply =
    | Confirmed
    | InvalidToken
    | UsedToken
    | RevokedToken
    | ExpiredToken
    | AlreadyVerified
    | ConfirmFailed

  function Used(db: Tables, id: Uuid, at: Time): Tables
    requires id in db.verifications && db.verifications[id].userId in db.users
  {
    var user := db.verifications[id].userId;
    db.(verifications := db.verifications[id := db.verifications[id].(usedAt := Some(at), ciphertext := None)],
        users := db.users[user := db.users[user].(verifiedAt := Some(at))])
  }

  function Confirm(db: Tables, hash: Hash, at: Time): (Tables, ConfirmReply) {
    if hash !in db.hashes || db.hashes[hash] !in db.verifications then (db, InvalidToken)
    else
      var id := db.hashes[hash];
      var v := db.verifications[id];
      if v.userId !in db.users then (db, ConfirmFailed)
      else if v.usedAt.Some? then (db, UsedToken)
      else if v.revokedAt.Some? then (db, RevokedToken)
      else if v.expiresAt <= at then (db, ExpiredToken)
      else if db.users[v.userId].verifiedAt.Some? then (db, AlreadyVerified)
      else (Used(db, id, at), Confirmed)
  }

  datatype ResendReply =
    | Resent
    | UserNotFound
    | UserVerified
    | HourlyLimit
    | Cooldown
    | ResendFailed

  predicate InWindow(v: VerificationRow, userId: Uuid, at: Time) {
    v.userId == userId && at - WINDOW <= v.createdAt <= at
  }

  /** The verifications of the user created in the closed hour that ends at `at`. */
  function Window(verifications: map<Uuid, VerificationRow>, userId: Uuid, at: Time): set<Uuid> {
    set id | id in verifications && InWindow(verifications[id], userId, at)
  }

  /** `MAX(created_at)` of the user, if any, is at least the cooldown before `at`. */
  predicate CooledDown(verifications: map<Uuid, VerificationRow>, userId: Uuid, at: Time) {
    forall id :: id in verifications && verifications[id].userId == userId ==>
                   at - verifications[id].createdAt >= COOLDOWN
  }

  /** `UPDATE ... SET revoked_at WHERE used_at IS NULL AND revoked_at IS NULL AND expires_at > at`. */
  function Revoked(verifications: map<Uuid, VerificationRow>, userId: Uuid, at: Time)
    : map<Uuid, VerificationRow>
  {
    map id | id in verifications ::
      if verifications[id].userId == userId && Live(verifications[id], at)
      then verifications[id].(revokedAt := Some(at)) else verifications[id]
  }

  function Resend(db: Tables, input: ResendInput): (Tables, ResendReply) {
    var key := Lower(input.email);
    if key !in db.emails || db.emails[key] !in db.users || db.users[db.emails[key]].email != input.email then
      (db, UserNotFound)
    else
      var user, at := db.emails[key], input.requestedAt;
      if db.users[user].verifiedAt.Some? then (db, UserVerified)
      else if |Window(db.verifications, user, at)| >= HOURLY_LIMIT then (db, HourlyLimit)
      else if !CooledDown(db.verifications, user, at) then (db, Cooldown)
      else if !Insertable(db, input.verification, input.event) then (db, ResendFailed)
      else
        (Inserted(db.(verifications := Revoked(db.verifications, user, at)), user, at, input.verification, input.event),
         Resent)
  }

  datatype Delivery = Deliver(id: Uuid, ciphertext: Bytes, expiresAt: Time) | NotFound | DeliveryInactive | Unreadable

  function GetForDelivery(verifications: map<Uuid, VerificationRow>, id: Uuid, fails: bool): Delivery {
    if fails then Unreadable
    else if id !in verifications then NotFound
    else
      var v := verifications[id];
      if v.usedAt.Some? || v.revokedAt.Some? || v.ciphertext.None? || v.ciphertext.value == [] then DeliveryInactive
      else Deliver(id, v.ciphertext.value, v.expiresAt)
  }

  // The same transactions when a statement fails or the commit is not acknowledged.

  function CreateAttempt(db: Tables, input: CreateUserInput, fault: Fault): (Tables, CreateReply) {
    var (after, reply) := CreateUser(db, input);
    match fault
    case Healthy => (after, reply)
    case FailsAt(k) =>
      if k < (match reply case UserCreated => 5 case EmailExists => 2 case CreateFailed => 0)
      then (db, CreateFailed) else (after, reply)
    case CommitUnacked => (after, if reply.UserCreated? then CreateFailed else reply)
  }

  function ConfirmAttempt(db: Tables, hash: Hash, at: Time, fault: Fault): (Tables, ConfirmReply) {
    var (after, reply) := Confirm(db, hash, at);
    match fault
    case Healthy => (after, reply)
    case FailsAt(k) =>
      if k < (match reply case Confirmed => 7 case InvalidToken => 2 case ConfirmFailed => 0 case _ => 4)
      then (db, ConfirmFailed) else (after, reply)
    case CommitUnacked => (after, if reply.Confirmed? then ConfirmFailed else reply)
  }

  function ResendAttempt(db: Tables, input: ResendInput, fault: Fault): (Tables, ResendReply) {
    var (after, reply) := Resend(db, input);
    match fault
    case Healthy => (after, reply)
    case FailsAt(k) =>
      if k < (match reply
              case Resent => 8
              case UserNotFound | UserVerified => 2
              case HourlyLimit => 3
              case Cooldown => 4
              case ResendFailed => 0)
      then (db, ResendFailed) else (after, reply)
    case CommitUnacked => (after, if reply.Resent? then ResendFailed else reply)
  }

  // ---------------------------------------------------------------------------------------
  // The repository: the same transactions, statement by statement
  // ---------------------------------------------------------------------------------------

  class AuthRepository {
    var users: map<Uuid, UserRow>
    var emails: map<string, Uuid>
    var verifications: map<Uuid, VerificationRow>
    var hashes: map<Hash, Uuid>
    var outbox: Rows

    ghost function Db(): Tables
      reads this
    {
      Tables(users, emails, verifications, hashes, outbox)
    }

    constructor ()
      ensures Db() == EMPTY
    {
      users, emails, verifications, hashes, outbox := map[], map[], map[], map[], map[];
    }

    method InsertVerification(userId: Uuid, createdAt: Time, v: VerificationInput) returns (ok: bool)
      modifies this`verifications, this`hashes
      ensures ok <==> v.id !in old(verifications) && v.tokenHash !in old(hashes)
      ensures verifications == if !ok then old(verifications) else old(verifications)[v.id :=
                VerificationRow(userId, v.tokenHash, Some(v.ciphertext), v.expiresAt, None, None, createdAt)]
      ensures hashes == if !ok then old(hashes) else old(hashes)[v.tokenHash := v.id]
    {
      if v.id in verifications || v.tokenHash in hashes {
        return false;
      }
      verifications := verifications[v.id :=
        VerificationRow(userId, v.tokenHash, Some(v.ciphertext), v.expiresAt, None, None, createdAt)];
      hashes := hashes[v.tokenHash := v.id];
      return true;
    }

    method InsertEvent(e: EventInput) returns (ok: bool)
      modifies this`outbox
      ensures ok <==> e.id !in old(outbox) && e.payload.Object?
      ensures outbox == if ok then old(outbox)[e.id := NewEvent(e)] else old(outbox)
    {
      if e.id in outbox || !e.payload.Object? {
        return false;
      }
      outbox := outbox[e.id := NewEvent(e)];
      return true;
    }

    method CreateUser(input: CreateUserInput, fault: Fault) returns (reply: CreateReply)
      modifies this
      ensures (Db(), reply) == CreateAttempt(old(Db()), input, fault)
    {
      if fault == FailsAt(0) || fault == FailsAt(1) || input.id in users {
        return CreateFailed;
      }
      if Lower(input.email) in emails {
        return EmailExists;
      }
      var savedUsers, savedEmails := users, emails;
      var savedVerifications, savedHashes, savedOutbox := verifications, hashes, outbox;
      users := users[input.id := UserRow(input.email, input.createdAt, None)];
      emails := emails[Lower(input.email) := input.id];
      var ok := fault != FailsAt(2);
      if ok {
        ok := InsertVerification(input.id, input.createdAt, input.verification);
      }
      if ok && fault != FailsAt(3) {
        ok := InsertEvent(input.event);
      }
      if !ok || fault == FailsAt(3) || fault == FailsAt(4) {
        users, emails := savedUsers, savedEmails;
        verifications, hashes, outbox := savedVerifications, savedHashes, savedOutbox;
        return CreateFailed;
      }
      return if fault == CommitUnacked then CreateFailed else UserCreated;
    }

    method ConfirmEmail(hash: Hash, at: Time, fault: Fault) returns (reply: ConfirmReply)
      modifies this
      ensures (Db(), reply) == ConfirmAttempt(old(Db()), hash, at, fault)
    {
      if fault == FailsAt(0) || fault == FailsAt(1) {
        return ConfirmFailed;
      }
      if hash !in hashes || hashes[hash] !in verifications {
        return InvalidToken;
      }
      var id := hashes[hash];
      var userId := verifications[id].userId;
      if fault == FailsAt(2) || userId !in users {
        return ConfirmFailed;
      }
      var emailVerifiedAt := users[userId].verifiedAt;
      if fault == FailsAt(3) {
        return ConfirmFailed;
      }
      var v := verifications[id];
      if v.usedAt.Some? {
        return UsedToken;
      }
      if v.revokedAt.Some? {
        return RevokedToken;
      }
      if !(at < v.expiresAt) {
        return ExpiredToken;
      }
      if emailVerifiedAt.Some? {
        return AlreadyVerified;
      }
      if fault == FailsAt(4) {
        return ConfirmFailed;
      }
      var savedVerifications, savedUsers := verifications, users;
      verifications := verifications[id := verifications[id].(usedAt := Some(at), ciphertext := None)];
      if fault == FailsAt(5) {
        verifications := savedVerifications;
        return ConfirmFailed;
      }
      users := users[userId := users[userId].(verifiedAt := Some(at))];
      if fault == FailsAt(6) {
        verifications, users := savedVerifications, savedUsers;
        return ConfirmFailed;
      }
      return if fault == CommitUnacked then ConfirmFailed else Confirmed;
    }

    method ResendVerification(input: ResendInput, fault: Fault) returns (reply: ResendReply)
      modifies this
      ensures (Db(), reply) == ResendAttempt(old(Db()), input, fault)
    {
      if fault == FailsAt(0) || fault == FailsAt(1) {
        return ResendFailed;
      }
      var key, at := Lower(input.email), input.requestedAt;
      if key !in emails || emails[key] !in users || users[emails[key]].email != input.email {
        return UserNotFound;
      }
      var userId := emails[key];
      if users[userId].verifiedAt.Some? {
        return UserVerified;
      }
      if fault == FailsAt(2) {
        return ResendFailed;
      }
      var count := |Window(verifications, userId, at)|;
      if count >= HOURLY_LIMIT {
        return HourlyLimit;
      }
      if fault == FailsAt(3) {
        return ResendFailed;
      }
      if !CooledDown(verifications, userId, at) {
        return Cooldown;
      }
      if fault == FailsAt(4) {
        return ResendFailed;
      }
      var savedVerifications, savedHashes, savedOutbox := verifications, hashes, outbox;
      verifications := Revoked(verifications, userId, at);
      var ok := fault != FailsAt(5);
      if ok {
        ok := InsertVerification(userId, at, input.verification);
      }
      if ok && fault != FailsAt(6) {
        ok := InsertEvent(input.event);
      }
      if !ok || fault == FailsAt(6) || fault == FailsAt(7) {
        verifications, hashes, outbox := savedVerifications, savedHashes, savedOutbox;
        return ResendFailed;
      }
      return if fault == CommitUnacked then ResendFailed else Resent;
    }

    method ReadForDelivery(id: Uuid, fails: bool) returns (delivery: Delivery)
      ensures delivery == GetForDelivery(verifications, id, fails)
      ensures delivery == Unreadable <==> fails
      ensures delivery == NotFound <==> !fails && id !in verifications
      ensures delivery.Deliver? ==>
                && id in verifications
                && delivery == Deliver(id, verifications[id].ciphertext.value, verifications[id].expiresAt)
                && verifications[id].usedAt.None? && verifications[id].revokedAt.None?
    {
      if fails {
        return Unreadable;
      }
      if id !in verifications {
        return NotFound;
      }
      var v := verifications[id];
      if v.usedAt.Some? || v.revokedAt.Some? || v.ciphertext.None? || v.ciphertext.value == [] {
        return DeliveryInactive;
      }
      return Deliver(id, v.ciphertext.value, v.expiresAt);
    }
  }
}
