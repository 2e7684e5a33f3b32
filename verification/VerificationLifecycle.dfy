/** What every run of registrations, resends and confirmations keeps, whatever timestamps the
    callers bring to the row locks (internal/adapter/repository/postgres/auth_repository.go). */
module VerificationLifecycle {
  import opened Core
  import OutboxTable
  import opened Verifications

  datatype Op =
    | Register(user: CreateUserInput, fault: Fault)
    | Again(resend: ResendInput, fault: Fault)
    | Confirming(hash: Hash, at: Time, fault: Fault)
    | OutboxMoves(outbox: OutboxTable.Rows)   // whatever the workers did meanwhile
  {
    /** The timestamp the caller took before it reached the row locks, if it brings one. */
    function Stamp(): Option<Time> {
      match this
      case Register(user, _) => Some(user.createdAt)
      case Again(resend, _) => Some(resend.requestedAt)
      case Confirming(_, at, _) => Some(at)
      case OutboxMoves(_) => None
    }
  }

  function Apply(db: Tables, op: Op): Tables {
    match op
    case Register(user, fault) => CreateAttempt(db, user, fault).0
    case Again(resend, fault) => ResendAttempt(db, resend, fault).0
    case Confirming(hash, at, fault) => ConfirmAttempt(db, hash, at, fault).0
    case OutboxMoves(outbox) => db.(outbox := outbox)
  }

  function After(db: Tables, ops: seq<Op>): Tables {
    if ops == [] then db else Apply(After(db, ops[..|ops| - 1]), ops[|ops| - 1])
  }

  // ---------------------------------------------------------------------------------------
  // The invariants
  // ---------------------------------------------------------------------------------------

  /** The indexes and the foreign key agree with the tables. */
  ghost predicate Indexed(db: Tables) {
    && (forall id :: id in db.verifications ==>
          && db.verifications[id].tokenHash in db.hashes && db.hashes[db.verifications[id].tokenHash] == id
          && db.verifications[id].userId in db.users)
    && (forall h :: h in db.hashes ==>
          db.hashes[h] in db.verifications && db.verifications[db.hashes[h]].tokenHash == h)
    && (forall u :: u in db.users ==>
          Lower(db.users[u].email) in db.emails && db.emails[Lower(db.users[u].email)] == u)
    && (forall k :: k in db.emails ==>
          db.emails[k] in db.users && Lower(db.users[db.emails[k]].email) == k)
  }

  ghost predicate HasUsed(db: Tables, u: Uuid) {
    exists id :: id in db.verifications && db.verifications[id].userId == u && db.verifications[id].usedAt.Some?
  }

  /** Used and revoked exclude each other, only unused rows keep their ciphertext, a row is used
      before it expires, and its user is verified at that time. */
  ghost predicate Consistent(v: VerificationRow, users: map<Uuid, UserRow>) {
    && !(v.usedAt.Some? && v.revokedAt.Some?)
    && (v.usedAt.Some? <==> v.ciphertext.None?)
    && (v.usedAt.Some? ==> v.usedAt.value < v.expiresAt)
    && (v.usedAt.Some? && v.userId in users ==> users[v.userId].verifiedAt == v.usedAt)
  }

  /** Two rows of one user are not both used. */
  ghost predicate NotBothUsed(vs: map<Uuid, VerificationRow>, i: Uuid, j: Uuid) {
    i in vs && j in vs && i != j && vs[i].userId == vs[j].userId ==> vs[i].usedAt.None? || vs[j].usedAt.None?
  }

  /** A user is verified exactly when one of their rows was used, at that time. */
  ghost predicate Settled(db: Tables) {
    && (forall id :: id in db.verifications ==> Consistent(db.verifications[id], db.users))
    && (forall u :: u in db.users && db.users[u].verifiedAt.Some? ==> HasUsed(db, u))
    && (forall i, j {:trigger NotBothUsed(db.verifications, i, j)} :: NotBothUsed(db.verifications, i, j))
  }

  /** Two rows of one user are at least the cooldown apart. */
  ghost predicate Apart(vs: map<Uuid, VerificationRow>, i: Uuid, j: Uuid) {
    i in vs && j in vs && i != j && vs[i].userId == vs[j].userId ==>
      vs[i].createdAt + COOLDOWN <= vs[j].createdAt || vs[j].createdAt + COOLDOWN <= vs[i].createdAt
  }

  ghost predicate Spaced(vs: map<Uuid, VerificationRow>) {
    forall i, j {:trigger Apart(vs, i, j)} :: Apart(vs, i, j)
  }

  /** An older row that was not revoked had expired when the newer one was created. */
  ghost predicate Replaced(vs: map<Uuid, VerificationRow>, i: Uuid, j: Uuid) {
    && i in vs && j in vs && vs[i].userId == vs[j].userId
    && vs[i].createdAt < vs[j].createdAt && vs[i].revokedAt.None?
    ==> vs[i].expiresAt <= vs[j].createdAt
  }

  ghost predicate Superseded(vs: map<Uuid, VerificationRow>) {
    forall i, j {:trigger Replaced(vs, i, j)} :: Replaced(vs, i, j)
  }

  ghost predicate Limited(vs: map<Uuid, VerificationRow>) {
    forall u: Uuid, t: Time :: |Window(vs, u, t)| <= HOURLY_LIMIT
  }

  ghost predicate Inv(db: Tables) {
    && Indexed(db) && Settled(db)
    && Spaced(db.verifications) && Superseded(db.verifications) && Limited(db.verifications)
  }

  // ---------------------------------------------------------------------------------------
  // A new row
  // ---------------------------------------------------------------------------------------

  lemma RevokedKeepsShape(vs: map<Uuid, VerificationRow>, u: Uuid, at: Time)
    ensures Revoked(vs, u, at).Keys == vs.Keys
    ensures forall id :: id in vs ==>
              && Revoked(vs, u, at)[id] == vs[id].(revokedAt := Revoked(vs, u, at)[id].revokedAt)
              && (vs[id].userId == u && Revoked(vs, u, at)[id].revokedAt.None? ==>
                    vs[id].revokedAt.None? && (vs[id].usedAt.Some? || vs[id].expiresAt <= at))
              && (vs[id].revokedAt.Some? || vs[id].usedAt.Some? || vs[id].userId != u ==>
                    Revoked(vs, u, at)[id] == vs[id])
  {
  }

  /** The one row that a registration or a resend puts in front of the user's others. */
  ghost predicate NewestRow(
      vs: map<Uuid, VerificationRow>, after: map<Uuid, VerificationRow>, id: Uuid, u: Uuid, at: Time)
  {
    && id !in vs && id in after && after.Keys == vs.Keys + {id}
    && after[id].userId == u && after[id].createdAt == at && Unsettled(after[id]) && after[id].ciphertext.Some?
    && (forall j :: j in vs ==> after[j] == vs[j].(revokedAt := after[j].revokedAt))
    && (forall j :: j in vs && (vs[j].userId != u || vs[j].revokedAt.Some?) ==> after[j] == vs[j])
    && (forall j :: j in vs && vs[j].userId == u && after[j].revokedAt.None? ==> vs[j].expiresAt <= at)
    && (forall j :: j in vs && vs[j].userId == u ==> vs[j].usedAt.None?)
    && CooledDown(vs, u, at)
    && |Window(vs, u, at)| < HOURLY_LIMIT
  }

  lemma NewestKeepsSpacing(
      vs: map<Uuid, VerificationRow>, after: map<Uuid, VerificationRow>, id: Uuid, u: Uuid, at: Time)
    requires id !in vs && after.Keys == vs.Keys + {id} && after[id].userId == u && after[id].createdAt == at
    requires SameTimes(vs, after) && CooledDown(vs, u, at) && Spaced(vs)
    ensures Spaced(after)
  {
    forall i, j ensures Apart(after, i, j) {
      assert Apart(vs, i, j);
    }
  }

  lemma NewestSupersedes(vs: map<Uuid, VerificationRow>, after: map<Uuid, VerificationRow>, id: Uuid, u: Uuid, at: Time)
    requires NewestRow(vs, after, id, u, at) && Superseded(vs)
    ensures Superseded(after)
  {
    forall i, j ensures Replaced(after, i, j) {
      assert Replaced(vs, i, j);
      assert i in vs ==> after[i] == vs[i].(revokedAt := after[i].revokedAt);
      assert j in vs ==> after[j] == vs[j].(revokedAt := after[j].revokedAt);
    }
  }

  /** Owner and creation time of a row never change. */
  ghost predicate SameTimes(vs: map<Uuid, VerificationRow>, after: map<Uuid, VerificationRow>) {
    forall j :: j in vs ==>
      j in after && after[j].userId == vs[j].userId && after[j].createdAt == vs[j].createdAt
  }

  lemma WindowUnmoved(vs: map<Uuid, VerificationRow>, after: map<Uuid, VerificationRow>, w: Uuid, t: Time)
    requires SameTimes(vs, after)
    requires forall j :: j in after && j !in vs ==> !InWindow(after[j], w, t)
    ensures Window(after, w, t) == Window(vs, w, t)
  {
  }

  /** Whatever the window, it holds the new row and the last window before it at most. */
  lemma WindowGrowsByOne(
      vs: map<Uuid, VerificationRow>, after: map<Uuid, VerificationRow>, id: Uuid, u: Uuid, at: Time, t: Time)
    requires SameTimes(vs, after) && after.Keys == vs.Keys + {id}
    requires CooledDown(vs, u, at) && at <= t
    ensures |Window(after, u, t)| <= |Window(vs, u, at)| + 1
  {
    forall j | j in Window(after, u, t) ensures j in Window(vs, u, at) + {id} {
      if j in vs {
        assert at - vs[j].createdAt >= COOLDOWN;
      }
    }
    Subsets(Window(after, u, t), Window(vs, u, at) + {id});
  }

  lemma NewestKeepsLimit(vs: map<Uuid, VerificationRow>, after: map<Uuid, VerificationRow>, id: Uuid, u: Uuid, at: Time)
    requires id !in vs && after.Keys == vs.Keys + {id} && after[id].userId == u && after[id].createdAt == at
    requires SameTimes(vs, after) && CooledDown(vs, u, at) && |Window(vs, u, at)| < HOURLY_LIMIT && Limited(vs)
    ensures Limited(after)
  {
    forall w: Uuid, t: Time ensures |Window(after, w, t)| <= HOURLY_LIMIT {
      if w == u && at <= t {
        WindowGrowsByOne(vs, after, id, u, at, t);
      } else {
        WindowUnmoved(vs, after, w, t);
      }
    }
  }

  lemma Subsets<T>(a: set<T>, b: set<T>)
    requires a <= b
    ensures |a| <= |b|
  {
    assert b == a + (b - a);
  }

  lemma NewestKeepsSettled(db: Tables, after: Tables, id: Uuid, u: Uuid, at: Time)
    requires Settled(db) && NewestRow(db.verifications, after.verifications, id, u, at)
    requires u in after.users && after.users[u].verifiedAt.None?
    requires forall w :: w in after.users && w != u ==> w in db.users && after.users[w] == db.users[w]
    requires forall j :: j in db.verifications ==> db.verifications[j].userId in db.users
    ensures Settled(after)
  {
    var vs, vs' := db.verifications, after.verifications;
    forall w | w in after.users && after.users[w].verifiedAt.Some? ensures HasUsed(after, w) {
      var j :| j in vs && vs[j].userId == w && vs[j].usedAt.Some?;
      assert vs'[j] == vs[j];
    }
    forall j | j in vs' ensures Consistent(vs'[j], after.users) {
      if j != id {
        assert vs'[j] == vs[j].(revokedAt := vs'[j].revokedAt);
        assert Consistent(vs[j], db.users);
      }
    }
    forall i, j ensures NotBothUsed(vs', i, j) {
      assert NotBothUsed(vs, i, j);
      assert i in vs ==> vs'[i] == vs[i].(revokedAt := vs'[i].revokedAt);
      assert j in vs ==> vs'[j] == vs[j].(revokedAt := vs'[j].revokedAt);
    }
  }

  lemma InsertedKeepsIndexes(db: Tables, u: Uuid, at: Time, v: VerificationInput, e: EventInput)
    requires Indexed(db) && Insertable(db, v, e) && u in db.users
    ensures Indexed(Inserted(db, u, at, v, e))
  {
  }

  // ---------------------------------------------------------------------------------------
  // The three operations
  // ---------------------------------------------------------------------------------------

  function Named(db: Tables, input: CreateUserInput): Tables {
    db.(users := db.users[input.id := UserRow(input.email, input.createdAt, None)],
        emails := db.emails[Lower(input.email) := input.id])
  }

  lemma NamedKeepsIndexes(db: Tables, input: CreateUserInput)
    requires Indexed(db) && input.id !in db.users && Lower(input.email) !in db.emails
    ensures Indexed(Named(db, input))
  {
  }

  lemma CreateAddsNewest(db: Tables, input: CreateUserInput)
    requires Indexed(db) && CreateUser(db, input).1.UserCreated?
    ensures NewestRow(db.verifications, CreateUser(db, input).0.verifications, input.verification.id,
                      input.id, input.createdAt)
  {
    forall j | j in db.verifications ensures db.verifications[j].userId != input.id {
    }
    assert Window(db.verifications, input.id, input.createdAt) == {};
  }

  lemma CreateKeepsInv(db: Tables, input: CreateUserInput)
    requires Inv(db)
    ensures Inv(CreateUser(db, input).0)
  {
    var (after, reply) := CreateUser(db, input);
    if reply.UserCreated? {
      NamedKeepsIndexes(db, input);
      InsertedKeepsIndexes(Named(db, input), input.id, input.createdAt, input.verification, input.event);
      CreateAddsNewest(db, input);
      NewestKeepsEverything(db, after, input.verification.id, input.id, input.createdAt);
    }
  }

  lemma NewestKeepsEverything(db: Tables, after: Tables, id: Uuid, u: Uuid, at: Time)
    requires Inv(db) && Indexed(after) && NewestRow(db.verifications, after.verifications, id, u, at)
    requires u in after.users && after.users[u].verifiedAt.None?
    requires forall w :: w in after.users && w != u ==> w in db.users && after.users[w] == db.users[w]
    ensures Inv(after)
  {
    assert SameTimes(db.verifications, after.verifications);
    NewestKeepsSpacing(db.verifications, after.verifications, id, u, at);
    NewestSupersedes(db.verifications, after.verifications, id, u, at);
    NewestKeepsLimit(db.verifications, after.verifications, id, u, at);
    NewestKeepsSettled(db, after, id, u, at);
  }

  /** A resend that goes through makes the requested row the newest of its user. */
  lemma ResendAddsNewest(db: Tables, input: ResendInput)
    requires Indexed(db) && Settled(db) && Resend(db, input).1.Resent?
    ensures var u, after := db.emails[Lower(input.email)], Resend(db, input).0;
            && u in db.users && db.users[u].email == input.email
            && NewestRow(db.verifications, after.verifications, input.verification.id, u, input.requestedAt)
            && after.users == db.users && after.emails == db.emails
  {
    var u, at := db.emails[Lower(input.email)], input.requestedAt;
    RevokedKeepsShape(db.verifications, u, at);
    forall j | j in db.verifications && db.verifications[j].userId == u ensures db.verifications[j].usedAt.None? {
      assert Consistent(db.verifications[j], db.users);
    }
  }

  lemma ResendKeepsInv(db: Tables, input: ResendInput)
    requires Inv(db)
    ensures Inv(Resend(db, input).0)
  {
    var (after, reply) := Resend(db, input);
    if reply.Resent? {
      ResendAddsNewest(db, input);
      var u, at := db.emails[Lower(input.email)], input.requestedAt;
      var marked := db.(verifications := Revoked(db.verifications, u, at));
      RevokedKeepsShape(db.verifications, u, at);
      assert Indexed(marked);
      InsertedKeepsIndexes(marked, u, at, input.verification, input.event);
      NewestKeepsEverything(db, after, input.verification.id, u, at);
    }
  }

  lemma UseKeepsTimes(vs: map<Uuid, VerificationRow>, after: map<Uuid, VerificationRow>)
    requires after.Keys == vs.Keys
    requires forall j :: j in vs ==> after[j] == vs[j].(usedAt := after[j].usedAt, ciphertext := after[j].ciphertext)
    requires Spaced(vs) && Superseded(vs) && Limited(vs)
    ensures Spaced(after) && Superseded(after) && Limited(after)
  {
    forall i, j ensures Apart(after, i, j) && Replaced(after, i, j) {
      assert Apart(vs, i, j) && Replaced(vs, i, j);
    }
    forall w: Uuid, t: Time ensures |Window(after, w, t)| <= HOURLY_LIMIT {
      WindowUnmoved(vs, after, w, t);
    }
  }

  lemma UseKeepsSettled(db: Tables, id: Uuid, at: Time)
    requires Settled(db) && Indexed(db) && id in db.verifications
    requires Live(db.verifications[id], at) && db.users[db.verifications[id].userId].verifiedAt.None?
    ensures Settled(Used(db, id, at))
  {
    var vs, after := db.verifications, Used(db, id, at);
    var vs' := after.verifications;
    forall w | w in after.users && after.users[w].verifiedAt.Some? ensures HasUsed(after, w) {
      if w == vs[id].userId {
        assert vs'[id].usedAt.Some?;
      } else {
        var j :| j in vs && vs[j].userId == w && vs[j].usedAt.Some?;
        assert vs'[j] == vs[j];
      }
    }
    forall j | j in vs' ensures Consistent(vs'[j], after.users) {
      assert Consistent(vs[j], db.users);
    }
    forall i, j ensures NotBothUsed(vs', i, j) {
      assert NotBothUsed(vs, i, j);
      assert i in vs ==> Consistent(vs[i], db.users);
      assert j in vs ==> Consistent(vs[j], db.users);
    }
  }

  lemma UseKeepsIndexes(db: Tables, id: Uuid, at: Time)
    requires Indexed(db) && id in db.verifications
    ensures Indexed(Used(db, id, at))
  {
  }

  lemma UseKeepsInv(db: Tables, id: Uuid, at: Time)
    requires Inv(db) && id in db.verifications
    requires Live(db.verifications[id], at) && db.users[db.verifications[id].userId].verifiedAt.None?
    ensures Inv(Used(db, id, at))
  {
    UseKeepsSettled(db, id, at);
    UseKeepsIndexes(db, id, at);
    UseKeepsTimes(db.verifications, Used(db, id, at).verifications);
  }

  lemma ConfirmKeepsInv(db: Tables, hash: Hash, at: Time)
    requires Inv(db)
    ensures Inv(Confirm(db, hash, at).0)
  {
    if Confirm(db, hash, at).1.Confirmed? {
      UseKeepsInv(db, db.hashes[hash], at);
    }
  }

  /** A call either has the whole effect of its healthy run or none. */
  lemma AllOrNothing(db: Tables, op: Op)
    ensures op.Register? ==> Apply(db, op) == db || Apply(db, op) == CreateUser(db, op.user).0
    ensures op.Again? ==> Apply(db, op) == db || Apply(db, op) == Resend(db, op.resend).0
    ensures op.Confirming? ==> Apply(db, op) == db || Apply(db, op) == Confirm(db, op.hash, op.at).0
  {
  }

  lemma OutboxIsApart(db: Tables, outbox: OutboxTable.Rows)
    requires Inv(db)
    ensures Inv(db.(outbox := outbox))
  {
  }

  lemma ApplyKeepsInv(db: Tables, op: Op)
    requires Inv(db)
    ensures Inv(Apply(db, op))
  {
    AllOrNothing(db, op);
    match op
    case Register(user, _) => CreateKeepsInv(db, user);
    case Again(resend, _) => ResendKeepsInv(db, resend);
    case Confirming(hash, at, _) => ConfirmKeepsInv(db, hash, at);
    case OutboxMoves(outbox) => OutboxIsApart(db, outbox);
  }

  /** Every reachable state keeps all of it, with any timestamps and failures.  In particular at
      most five rows of a user lie in any closed hour, and the verified time of a user is that
      of their one used row. */
  lemma {:induction false} Invariant(ops: seq<Op>)
    ensures Inv(After(EMPTY, ops))
  {
    if ops != [] {
      Invariant(ops[..|ops| - 1]);
      ApplyKeepsInv(After(EMPTY, ops[..|ops| - 1]), ops[|ops| - 1]);
    }
  }

  // ---------------------------------------------------------------------------------------
  // What follows for callers
  // ---------------------------------------------------------------------------------------

  /** At most five verifications of a user, the registration's included, were created in the
      closed hour ending at any instant. */
  lemma SlidingWindow(ops: seq<Op>, u: Uuid, t: Time)
    ensures |Window(After(EMPTY, ops).verifications, u, t)| <= HOURLY_LIMIT
  {
    Invariant(ops);
  }

  lemma NewestEntersWindow(
      vs: map<Uuid, VerificationRow>, after: map<Uuid, VerificationRow>, id: Uuid, u: Uuid, at: Time)
    requires id !in vs && after.Keys == vs.Keys + {id} && SameTimes(vs, after)
    requires after[id].userId == u && after[id].createdAt == at
    ensures |Window(after, u, at)| == |Window(vs, u, at)| + 1
  {
    forall j ensures j in Window(after, u, at) <==> j in Window(vs, u, at) + {id} {
    }
    assert Window(after, u, at) == Window(vs, u, at) + {id};
  }

  /** The limit is met exactly: a resend that goes through adds one to the hour that ends at it, and
      one is refused for the limit only when that hour holds five. */
  lemma {:induction false} WindowIsTight(ops: seq<Op>, input: ResendInput)
    requires Lower(input.email) in After(EMPTY, ops).emails
    ensures var db := After(EMPTY, ops);
            var u, at := db.emails[Lower(input.email)], input.requestedAt;
            var (after, reply) := Resend(db, input);
            && (reply.Resent? ==> |Window(after.verifications, u, at)| == |Window(db.verifications, u, at)| + 1)
            && (reply.HourlyLimit? ==> |Window(db.verifications, u, at)| == HOURLY_LIMIT)
  {
    Invariant(ops);
    var db := After(EMPTY, ops);
    if Resend(db, input).1.Resent? {
      ResendAddsNewest(db, input);
      NewestEntersWindow(db.verifications, Resend(db, input).0.verifications, input.verification.id,
                         db.emails[Lower(input.email)], input.requestedAt);
    }
  }

  // A registration and resends, a minute apart.

  function Numbered(k: byte): Uuid {
    [k, 0, 0, 0, 0, 0, 0, 0, 0, 0, 0, 0, 0, 0, 0, 0]
  }

  function Ask(k: byte, lifetime: Time): ResendInput {
    var at := k as int * MINUTE;
    ResendInput(
      "a@b", at, VerificationInput(Numbered(k), [k], [1], at + lifetime),
      EventInput(Numbered(k), "event", OutboxTable.EMPTY_PAYLOAD, at, at))
  }

  function AMinuteApart(k: byte, lifetime: Time): seq<Op>
    requires k > 0
    decreases k
  {
    if k == 1 then
      var first := Ask(0, lifetime);
      [Register(CreateUserInput(NIL_UUID, "a@b", 0, first.verification, first.event), Healthy)]
    else AMinuteApart(k - 1, lifetime) + [Again(Ask(k - 1, lifetime), Healthy)]
  }

  /** The user has `k` rows, all of the last `k` minutes, and none of the later numbers is taken. */
  ghost predicate Filled(db: Tables, k: byte) {
    && "a@b" in db.emails && db.emails["a@b"] == NIL_UUID && NIL_UUID in db.users
    && db.users[NIL_UUID] == UserRow("a@b", 0, None)
    && |db.verifications.Keys| == k as int
    && (forall v :: v in db.verifications ==>
          && db.verifications[v].userId == NIL_UUID && v[0] < k
          && 0 <= db.verifications[v].createdAt <= (k as int - 1) * MINUTE)
    && (forall h :: h in db.hashes ==> |h| == 1 && h[0] < k)
    && (forall e :: e in db.outbox ==> e[0] < k)
  }

  lemma FilledWindow(db: Tables, k: byte)
    requires 0 < k <= 6 && Filled(db, k)
    ensures |Window(db.verifications, NIL_UUID, (k as int - 1) * MINUTE)| == k as int
    ensures |Window(db.verifications, NIL_UUID, k as int * MINUTE)| == k as int
  {
    assert Window(db.verifications, NIL_UUID, (k as int - 1) * MINUTE) == db.verifications.Keys;
    assert Window(db.verifications, NIL_UUID, k as int * MINUTE) == db.verifications.Keys;
  }

  lemma LowerIsLower()
    ensures Lower("a@b") == "a@b"
  {
  }

  lemma AskAnswered(db: Tables, k: byte, lifetime: Time)
    requires 0 < k <= 5 && Filled(db, k)
    ensures Resend(db, Ask(k, lifetime)).1 == if k < 5 then Resent else HourlyLimit
  {
    FilledWindow(db, k);
    LowerIsLower();
  }

  /** The tables with one row more, under the next number. */
  ghost predicate OneMore(db: Tables, after: Tables, k: byte) {
    && after.users == db.users && after.emails == db.emails
    && after.verifications.Keys == db.verifications.Keys + {Numbered(k)}
    && SameTimes(db.verifications, after.verifications)
    && after.verifications[Numbered(k)].userId == NIL_UUID
    && after.verifications[Numbered(k)].createdAt == k as int * MINUTE
    && after.hashes.Keys == db.hashes.Keys + {[k]} && after.outbox.Keys == db.outbox.Keys + {Numbered(k)}
  }

  lemma AskAddsOne(db: Tables, k: byte, lifetime: Time)
    requires "a@b" in db.emails && db.emails["a@b"] == NIL_UUID && Numbered(k) !in db.verifications
    requires Resend(db, Ask(k, lifetime)).1.Resent?
    ensures OneMore(db, Resend(db, Ask(k, lifetime)).0, k)
  {
    LowerIsLower();
    RevokedKeepsShape(db.verifications, NIL_UUID, k as int * MINUTE);
  }

  lemma FillOne(db: Tables, after: Tables, k: byte)
    requires 0 < k < 5 && Filled(db, k) && OneMore(db, after, k)
    ensures Filled(after, k + 1)
  {
    assert Numbered(k) !in db.verifications;
    forall v | v in after.verifications
      ensures after.verifications[v].userId == NIL_UUID && v[0] < k + 1
           && 0 <= after.verifications[v].createdAt <= k as int * MINUTE
    {
      assert v == Numbered(k) || v in db.verifications;
    }
  }

  lemma FirstFills(lifetime: Time)
    ensures Filled(After(EMPTY, AMinuteApart(1, lifetime)), 1)
  {
    var ops := AMinuteApart(1, lifetime);
    LowerIsLower();
    assert ops[..0] == [] && After(EMPTY, ops) == Apply(EMPTY, ops[0]);
    assert After(EMPTY, ops).verifications.Keys == {Numbered(0)};
  }

  lemma AskFillsOne(db: Tables, k: byte, lifetime: Time)
    requires 0 < k < 5 && Filled(db, k)
    ensures Filled(Apply(db, Again(Ask(k, lifetime), Healthy)), k + 1)
  {
    AskAnswered(db, k, lifetime);
    AskAddsOne(db, k, lifetime);
    FillOne(db, Resend(db, Ask(k, lifetime)).0, k);
  }

  lemma {:induction false} FillsUp(k: byte, lifetime: Time)
    requires 0 < k <= 5
    ensures Filled(After(EMPTY, AMinuteApart(k, lifetime)), k)
    decreases k
  {
    if k == 1 {
      FirstFills(lifetime);
    } else {
      var front, last := AMinuteApart(k - 1, lifetime), Again(Ask(k - 1, lifetime), Healthy);
      FillsUp(k - 1, lifetime);
      AskFillsOne(After(EMPTY, front), k - 1, lifetime);
      AfterOneMore(front, last);
    }
  }

  lemma AfterOneMore(ops: seq<Op>, op: Op)
    ensures After(EMPTY, ops + [op]) == Apply(After(EMPTY, ops), op)
  {
    assert (ops + [op])[..|ops|] == ops;
  }

  /** Five is reached: after a registration and four resends a minute apart the hour holds five rows,
      and the next resend is refused. */
  lemma {:induction false} WindowIsReached(lifetime: Time)
    ensures var db := After(EMPTY, AMinuteApart(5, lifetime));
            && |Window(db.verifications, NIL_UUID, 4 * MINUTE)| == HOURLY_LIMIT
            && Resend(db, Ask(5, lifetime)).1.HourlyLimit?
  {
    FillsUp(5, lifetime);
    FilledWindow(After(EMPTY, AMinuteApart(5, lifetime)), 5);
    AskAnswered(After(EMPTY, AMinuteApart(5, lifetime)), 5, lifetime);
  }

  /** In commit order each new row of a user is at least a minute after all rows before it,
      although requests may reach the row lock out of order. */
  lemma {:induction false} NewRowsComeLater(ops: seq<Op>, op: Op, id: Uuid, j: Uuid)
    requires var vs, after := After(EMPTY, ops).verifications, Apply(After(EMPTY, ops), op).verifications;
             id in after && id !in vs && j in vs && vs[j].userId == after[id].userId
    ensures var vs, after := After(EMPTY, ops).verifications, Apply(After(EMPTY, ops), op).verifications;
            vs[j].createdAt + COOLDOWN <= after[id].createdAt
  {
    var db := After(EMPTY, ops);
    Invariant(ops);
    AllOrNothing(db, op);
    if op.Register? {
      CreateAddsNewest(db, op.user);
    } else if op.Again? {
      ResendAddsNewest(db, op.resend);
    }
  }

  /** From the newest creation time on, a user has at most one live row and it is the newest. */
  lemma OneLiveVerification(ops: seq<Op>, t: Time, i: Uuid, j: Uuid)
    requires var vs := After(EMPTY, ops).verifications;
             && i in vs && j in vs && vs[i].userId == vs[j].userId
             && Live(vs[i], t) && vs[j].createdAt <= t
    ensures var vs := After(EMPTY, ops).verifications;
            && vs[j].createdAt <= vs[i].createdAt
            && (Live(vs[j], t) && vs[i].createdAt <= t ==> i == j)
  {
    Invariant(ops);
    var vs := After(EMPTY, ops).verifications;
    assert Replaced(vs, i, j) && Replaced(vs, j, i) && Apart(vs, i, j);
  }

  /** `i` was used at `t`, was never revoked, and is the only row of its user that was used. */
  ghost predicate OnlyUse(vs: map<Uuid, VerificationRow>, i: Uuid, u: Uuid, t: Time) {
    && i in vs && vs[i].userId == u && vs[i].usedAt == Some(t) && vs[i].revokedAt.None?
    && forall j :: j in vs && vs[j].userId == u && j != i ==> vs[j].usedAt.None?
  }

  lemma UseIsTheOnlyOne(db: Tables, i: Uuid)
    requires Settled(db) && i in db.verifications && db.verifications[i].usedAt.Some?
    requires db.verifications[i].userId in db.users
    ensures db.users[db.verifications[i].userId].verifiedAt == db.verifications[i].usedAt
    ensures OnlyUse(db.verifications, i, db.verifications[i].userId, db.verifications[i].usedAt.value)
  {
    var vs := db.verifications;
    assert Consistent(vs[i], db.users);
    forall j | j in vs && vs[j].userId == vs[i].userId && j != i ensures vs[j].usedAt.None? {
      assert NotBothUsed(vs, i, j);
    }
  }

  /** A user is verified at `t` exactly when one row of theirs was used at `t`, and that is the
      only row of theirs that was ever used. */
  lemma VerifiedByExactlyOneUse(ops: seq<Op>, u: Uuid, t: Time)
    requires u in After(EMPTY, ops).users
    ensures var db := After(EMPTY, ops);
            db.users[u].verifiedAt == Some(t) <==> exists i :: OnlyUse(db.verifications, i, u, t)
  {
    Invariant(ops);
    var db := After(EMPTY, ops);
    if db.users[u].verifiedAt.Some? {
      assert HasUsed(db, u);
      var i :| i in db.verifications && db.verifications[i].userId == u && db.verifications[i].usedAt.Some?;
      UseIsTheOnlyOne(db, i);
    }
    if i :| OnlyUse(db.verifications, i, u, t) {
      UseIsTheOnlyOne(db, i);
    }
  }

  /** The user row and all verification rows of the user are the same in both states. */
  ghost predicate SameUser(db: Tables, after: Tables, u: Uuid) {
    && u in db.users && u in after.users && after.users[u] == db.users[u]
    && (forall i :: i in db.verifications && db.verifications[i].userId == u ==>
          i in after.verifications && after.verifications[i] == db.verifications[i])
    && (forall i :: i in after.verifications && after.verifications[i].userId == u ==>
          i in db.verifications && db.verifications[i].userId == u)
  }

  lemma CreateElsewhere(db: Tables, input: CreateUserInput, u: Uuid)
    requires Indexed(db) && u in db.users
    ensures SameUser(db, CreateUser(db, input).0, u)
  {
  }

  lemma ResendElsewhere(db: Tables, input: ResendInput, u: Uuid)
    requires u in db.users && db.users[u].verifiedAt.Some?
    ensures SameUser(db, Resend(db, input).0, u)
  {
  }

  lemma ConfirmElsewhere(db: Tables, hash: Hash, at: Time, u: Uuid)
    requires u in db.users && db.users[u].verifiedAt.Some?
    ensures SameUser(db, Confirm(db, hash, at).0, u)
  {
  }

  lemma VerifiedStaysPut(db: Tables, op: Op, u: Uuid)
    requires Indexed(db) && u in db.users && db.users[u].verifiedAt.Some?
    ensures SameUser(db, Apply(db, op), u)
  {
    AllOrNothing(db, op);
    match op
    case Register(user, _) => CreateElsewhere(db, user, u);
    case Again(resend, _) => ResendElsewhere(db, resend, u);
    case Confirming(hash, at, _) => ConfirmElsewhere(db, hash, at, u);
    case OutboxMoves(_) =>
  }

  /** The verified time is written once, and from then on nothing of the user changes. */
  lemma {:induction false} VerifiedUserIsFrozen(db: Tables, ops: seq<Op>, u: Uuid)
    requires Inv(db) && u in db.users && db.users[u].verifiedAt.Some?
    ensures Inv(After(db, ops)) && SameUser(db, After(db, ops), u)
  {
    if ops != [] {
      var front, last := ops[..|ops| - 1], ops[|ops| - 1];
      VerifiedUserIsFrozen(db, front, u);
      VerifiedStaysPut(After(db, front), last, u);
      ApplyKeepsInv(After(db, front), last);
    }
  }

  // ---------------------------------------------------------------------------------------
  // The refusal `already verified` of ConfirmEmail
  // ---------------------------------------------------------------------------------------

  /** `v` was used, and `w` of the same user had expired when `v` was created, or was created after
      that use. */
  ghost predicate UsedApart(vs: map<Uuid, VerificationRow>, v: Uuid, w: Uuid) {
    && v in vs && w in vs && vs[v].userId == vs[w].userId && vs[v].usedAt.Some?
    && (vs[w].expiresAt <= vs[v].createdAt || vs[v].usedAt.value < vs[w].createdAt)
  }

  lemma UsedBesideLive(db: Tables, v: Uuid, w: Uuid, at: Time)
    requires Inv(db) && v in db.verifications && w in db.verifications
    requires db.verifications[v].userId == db.verifications[w].userId
    requires db.verifications[v].usedAt.Some? && Live(db.verifications[w], at)
    ensures UsedApart(db.verifications, v, w)
  {
    var vs := db.verifications;
    assert Consistent(vs[v], db.users) && Apart(vs, v, w) && Replaced(vs, v, w) && Replaced(vs, w, v);
  }

  /** The refusal is given exactly for a row that is live at the stamp although a row created after
      its expiry was used, or although it was created after another row's use. */
  lemma {:induction false} AlreadyVerifiedExactlyWhen(ops: seq<Op>, hash: Hash, at: Time)
    ensures var db := After(EMPTY, ops);
            Confirm(db, hash, at).1.AlreadyVerified? <==>
              && hash in db.hashes && db.hashes[hash] in db.verifications
              && Live(db.verifications[db.hashes[hash]], at)
              && exists v :: UsedApart(db.verifications, v, db.hashes[hash])
  {
    Invariant(ops);
    var db := After(EMPTY, ops);
    var vs := db.verifications;
    if hash in db.hashes && Live(vs[db.hashes[hash]], at) {
      var w := db.hashes[hash];
      if db.users[vs[w].userId].verifiedAt.Some? {
        assert HasUsed(db, vs[w].userId);
        var v :| v in vs && vs[v].userId == vs[w].userId && vs[v].usedAt.Some?;
        UsedBesideLive(db, v, w, at);
      }
      if v :| UsedApart(vs, v, w) {
        assert Consistent(vs[v], db.users);
      }
    }
  }

  /** Hence it takes a clock that steps back: a confirmation stamped before one of the user's rows
      was created, this one or the one that verified the user. */
  lemma {:induction false} AlreadyVerifiedNeedsAnOldStamp(ops: seq<Op>, hash: Hash, at: Time) returns (j: Uuid)
    requires Confirm(After(EMPTY, ops), hash, at).1.AlreadyVerified?
    ensures var db := After(EMPTY, ops);
            && hash in db.hashes && db.hashes[hash] in db.verifications
            && var user := db.verifications[db.hashes[hash]].userId;
            && user in db.users && db.users[user].verifiedAt.Some?
            && j in db.verifications && db.verifications[j].userId == user
            && (at < db.verifications[j].createdAt || db.users[user].verifiedAt.value < db.verifications[j].createdAt)
  {
    AlreadyVerifiedExactlyWhen(ops, hash, at);
    Invariant(ops);
    var db := After(EMPTY, ops);
    var vs, w := db.verifications, db.hashes[hash];
    var v :| UsedApart(vs, v, w);
    assert Consistent(vs[v], db.users);
    j := if vs[w].expiresAt <= vs[v].createdAt then v else w;
  }

  ghost predicate Monotone(ops: seq<Op>) {
    forall i, j :: (0 <= i < j < |ops| && ops[i].Stamp().Some? && ops[j].Stamp().Some?) ==>
                     ops[i].Stamp().value <= ops[j].Stamp().value
  }

  ghost predicate StampedBy(ops: seq<Op>, now: Time) {
    forall i :: 0 <= i < |ops| && ops[i].Stamp().Some? ==> ops[i].Stamp().value <= now
  }

  /** The row was created neither after `now` nor after its user was verified. */
  ghost predicate InTime(v: VerificationRow, users: map<Uuid, UserRow>, now: Time) {
    && v.createdAt <= now
    && (v.userId in users && users[v.userId].verifiedAt.Some? ==> v.createdAt <= users[v.userId].verifiedAt.value)
  }

  ghost predicate CreatedInTime(db: Tables, now: Time) {
    forall i :: i in db.verifications ==> InTime(db.verifications[i], db.users, now)
  }

  lemma ConfirmInTime(db: Tables, hash: Hash, before: Time, now: Time)
    requires CreatedInTime(db, before) && before <= now
    ensures CreatedInTime(Confirm(db, hash, now).0, now)
  {
  }

  lemma LaterInTime(db: Tables, before: Time, now: Time)
    requires CreatedInTime(db, before) && before <= now
    ensures CreatedInTime(db, now)
  {
  }

  lemma CreateInTime(db: Tables, input: CreateUserInput, before: Time)
    requires Indexed(db) && CreatedInTime(db, before) && before <= input.createdAt
    requires CreateUser(db, input).1.UserCreated?
    ensures CreatedInTime(CreateUser(db, input).0, input.createdAt)
  {
  }

  lemma ResendInTime(db: Tables, input: ResendInput, before: Time)
    requires Indexed(db) && Settled(db) && CreatedInTime(db, before) && before <= input.requestedAt
    requires Resend(db, input).1.Resent?
    ensures CreatedInTime(Resend(db, input).0, input.requestedAt)
  {
  }

  lemma ApplyInTime(db: Tables, op: Op, before: Time, now: Time)
    requires Inv(db) && CreatedInTime(db, before) && before <= now
    requires op.Stamp().Some? ==> op.Stamp().value == now
    ensures CreatedInTime(Apply(db, op), now)
  {
    AllOrNothing(db, op);
    LaterInTime(db, before, now);
    if Apply(db, op) != db {
      match op
      case Register(user, _) => CreateInTime(db, user, before);
      case Again(resend, _) => ResendInTime(db, resend, before);
      case Confirming(hash, _, _) => ConfirmInTime(db, hash, before, now);
      case OutboxMoves(_) =>
    }
  }

  lemma {:induction false} RunInTime(ops: seq<Op>, now: Time)
    requires Monotone(ops) && StampedBy(ops, now)
    ensures CreatedInTime(After(EMPTY, ops), now)
  {
    if ops != [] {
      var front, last := ops[..|ops| - 1], ops[|ops| - 1];
      var stamp := if last.Stamp().Some? then last.Stamp().value else now;
      RunInTime(front, stamp);
      Invariant(front);
      ApplyInTime(After(EMPTY, front), last, stamp, stamp);
      forall i | i in After(EMPTY, ops).verifications
        ensures InTime(After(EMPTY, ops).verifications[i], After(EMPTY, ops).users, now)
      {
        assert InTime(After(EMPTY, ops).verifications[i], After(EMPTY, ops).users, stamp);
      }
    }
  }

  /** When stamps reach the database in order, the refusal is never given. */
  lemma AlreadyVerifiedUnreachable(ops: seq<Op>, hash: Hash, at: Time)
    requires Monotone(ops) && StampedBy(ops, at)
    ensures !Confirm(After(EMPTY, ops), hash, at).1.AlreadyVerified?
  {
    if Confirm(After(EMPTY, ops), hash, at).1.AlreadyVerified? {
      RunInTime(ops, at);
      var j := AlreadyVerifiedNeedsAnOldStamp(ops, hash, at);
    }
  }

  // A registration at 0; a resend just as the first link expires; the second link is used; then a
  // confirmation of the first link arrives whose stamp was taken before the expiry.

  function FirstUser(hash: Hash, lifetime: Time): CreateUserInput {
    CreateUserInput(
      NIL_UUID, "a@b", 0, VerificationInput(NIL_UUID, hash, [1], lifetime),
      EventInput(NIL_UUID, "event", OutboxTable.EMPTY_PAYLOAD, 0, 0))
  }

  function SecondRow(id: Uuid, hash: Hash, lifetime: Time): ResendInput {
    ResendInput(
      "a@b", lifetime, VerificationInput(id, hash, [2], lifetime + lifetime),
      EventInput(id, "event", OutboxTable.EMPTY_PAYLOAD, lifetime, lifetime))
  }

  lemma ResendAtExpiry(first: Hash, second: Hash, id: Uuid, lifetime: Time)
    requires first != second && id != NIL_UUID && lifetime >= COOLDOWN
    ensures var db := CreateUser(EMPTY, FirstUser(first, lifetime)).0;
            var (after, reply) := Resend(db, SecondRow(id, second, lifetime));
            && reply.Resent?
            && after.verifications == db.verifications[id :=
                 VerificationRow(NIL_UUID, second, Some([2]), lifetime + lifetime, None, None, lifetime)]
            && after.hashes == map[first := NIL_UUID, second := id]
            && after.users == map[NIL_UUID := UserRow("a@b", 0, None)]
            && db.verifications == map[NIL_UUID := VerificationRow(NIL_UUID, first, Some([1]), lifetime, None, None, 0)]
  {
    var db := CreateUser(EMPTY, FirstUser(first, lifetime)).0;
    assert Window(db.verifications, NIL_UUID, lifetime) <= {NIL_UUID};
    Subsets(Window(db.verifications, NIL_UUID, lifetime), {NIL_UUID});
    assert Revoked(db.verifications, NIL_UUID, lifetime) == db.verifications;
  }

  /** The second link is used, the first is then refused although its row is live at the stamp. */
  lemma FirstLinkRefused(db: Tables, first: Hash, second: Hash, id: Uuid, lifetime: Time)
    requires first in db.hashes && second in db.hashes && db.hashes[first] == NIL_UUID && db.hashes[second] == id
    requires id != NIL_UUID && id in db.verifications && NIL_UUID in db.verifications && NIL_UUID in db.users
    requires db.verifications[id].userId == NIL_UUID && db.verifications[NIL_UUID].userId == NIL_UUID
    requires Live(db.verifications[id], lifetime + 1) && Live(db.verifications[NIL_UUID], lifetime - 1)
    requires db.users[NIL_UUID].verifiedAt.None?
    ensures Confirm(Confirm(db, second, lifetime + 1).0, first, lifetime - 1).1.AlreadyVerified?
  {
  }

  lemma AfterThree(a: Op, b: Op, c: Op)
    ensures After(EMPTY, [a, b, c]) == Apply(Apply(Apply(EMPTY, a), b), c)
  {
    assert [a, b, c][..2] == [a, b] && [a, b][..1] == [a] && [a][..0] == [];
    assert After(EMPTY, [a]) == Apply(After(EMPTY, []), a);
    assert After(EMPTY, [a, b]) == Apply(After(EMPTY, [a]), b);
  }

  /** For every lifetime not shorter than the cooldown there is a run, without any failure, after
      which the refusal is given: `Monotone` cannot be dropped above. */
  lemma AlreadyVerifiedIsReachable(first: Hash, second: Hash, id: Uuid, lifetime: Time)
    requires first != second && id != NIL_UUID && lifetime >= COOLDOWN
    ensures var ops := [Register(FirstUser(first, lifetime), Healthy), Again(SecondRow(id, second, lifetime), Healthy),
                        Confirming(second, lifetime + 1, Healthy)];
            Confirm(After(EMPTY, ops), first, lifetime - 1).1.AlreadyVerified?
  {
    ResendAtExpiry(first, second, id, lifetime);
    var db := Resend(CreateUser(EMPTY, FirstUser(first, lifetime)).0, SecondRow(id, second, lifetime)).0;
    FirstLinkRefused(db, first, second, id, lifetime);
    AfterThree(Register(FirstUser(first, lifetime), Healthy), Again(SecondRow(id, second, lifetime), Healthy),
               Confirming(second, lifetime + 1, Healthy));
  }
}
