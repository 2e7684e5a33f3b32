/** Which answer each verification call gives in a reachable state, and the change it stands for
    (internal/adapter/repository/postgres/auth_repository.go).  Durations are spelt out here. */
module VerificationAnswers {
  import opened Core
  import OutboxTable
  import opened Verifications
  import opened VerificationLifecycle

  // ---------------------------------------------------------------------------------------
  // Confirming
  // ---------------------------------------------------------------------------------------

  /** A token without a row is invalid.  Otherwise the first that applies of used, revoked, expired
      and already verified is answered, and a row to which none applies is used now. */
  lemma {:induction false} ConfirmAnswers(ops: seq<Op>, hash: Hash, at: Time)
    ensures var db := After(EMPTY, ops);
            var (after, reply) := Confirm(db, hash, at);
            && (reply == InvalidToken <==> forall v :: v in db.verifications ==> db.verifications[v].tokenHash != hash)
            && forall id :: id in db.verifications && db.verifications[id].tokenHash == hash ==>
                 var v := db.verifications[id];
                 && v.userId in db.users
                 && (reply == UsedToken <==> v.usedAt.Some?)
                 && (reply == RevokedToken <==> v.revokedAt.Some?)
                 && (reply == ExpiredToken <==> v.usedAt.None? && v.revokedAt.None? && v.expiresAt <= at)
                 && (reply == AlreadyVerified <==>
                       && v.usedAt.None? && v.revokedAt.None? && at < v.expiresAt
                       && db.users[v.userId].verifiedAt.Some?)
                 && (reply == Confirmed <==>
                       && v.usedAt.None? && v.revokedAt.None? && at < v.expiresAt
                       && db.users[v.userId].verifiedAt.None?)
                 && after == if reply != Confirmed then db else db.(
                      verifications := db.verifications[id := v.(usedAt := Some(at), ciphertext := None)],
                      users := db.users[v.userId := db.users[v.userId].(verifiedAt := Some(at))])
  {
    Invariant(ops);
    var db := After(EMPTY, ops);
    if hash in db.hashes {
      assert Consistent(db.verifications[db.hashes[hash]], db.users);
    }
  }

  // ---------------------------------------------------------------------------------------
  // Resending
  // ---------------------------------------------------------------------------------------

  /** The rows of the user created in the closed hour that ends at `at`. */
  function LastHour(db: Tables, u: Uuid, at: Time): set<Uuid> {
    set v | v in db.verifications && db.verifications[v].userId == u
            && at - 3_600_000_000_000 <= db.verifications[v].createdAt <= at
  }

  /** A row of the user is less than a minute old at `at`, or younger. */
  ghost predicate TooSoon(db: Tables, u: Uuid, at: Time) {
    exists v :: v in db.verifications && db.verifications[v].userId == u
                && at - db.verifications[v].createdAt < 60_000_000_000
  }

  /** One of the new ids or the new hash is taken, or the payload is no object. */
  ghost predicate Taken(db: Tables, input: ResendInput) {
    || input.verification.id in db.verifications
    || (exists v :: v in db.verifications && db.verifications[v].tokenHash == input.verification.tokenHash)
    || input.event.id in db.outbox || !input.event.payload.Object?
  }

  lemma SameHour(db: Tables, u: Uuid, at: Time)
    ensures Window(db.verifications, u, at) == LastHour(db, u, at)
    ensures CooledDown(db.verifications, u, at) <==> !TooSoon(db, u, at)
  {
  }

  lemma KnownAddress(db: Tables, email: string)
    requires Indexed(db)
    ensures (Lower(email) in db.emails && db.users[db.emails[Lower(email)]].email == email)
       <==> exists u :: u in db.users && db.users[u].email == email
    ensures forall u :: u in db.users && db.users[u].email == email ==>
              Lower(email) in db.emails && db.emails[Lower(email)] == u
  {
  }

  lemma KnownHash(db: Tables, hash: Hash)
    requires Indexed(db)
    ensures hash in db.hashes <==> exists v :: v in db.verifications && db.verifications[v].tokenHash == hash
  {
    if hash in db.hashes {
      assert db.verifications[db.hashes[hash]].tokenHash == hash;
    }
  }

  /** An unknown address, a verified user, five rows in the last hour, a row of the last minute: the
      first that applies is answered; otherwise the resend goes through unless an id is taken. */
  lemma {:induction false} ResendAnswers(ops: seq<Op>, input: ResendInput)
    ensures var db, at := After(EMPTY, ops), input.requestedAt;
            var reply := Resend(db, input).1;
            && (reply == UserNotFound <==> forall u :: u in db.users ==> db.users[u].email != input.email)
            && forall u :: u in db.users && db.users[u].email == input.email ==>
                 var verified, full := db.users[u].verifiedAt.Some?, |LastHour(db, u, at)| >= 5;
                 && (reply == UserVerified <==> verified)
                 && (reply == HourlyLimit <==> !verified && full)
                 && (reply == Cooldown <==> !verified && !full && TooSoon(db, u, at))
                 && (reply == ResendFailed <==> !verified && !full && !TooSoon(db, u, at) && Taken(db, input))
                 && (reply == Resent <==> !verified && !full && !TooSoon(db, u, at) && !Taken(db, input))
  {
    Invariant(ops);
    var db := After(EMPTY, ops);
    KnownAddress(db, input.email);
    KnownHash(db, input.verification.tokenHash);
    forall u | u in db.users && db.users[u].email == input.email
      ensures Window(db.verifications, u, input.requestedAt) == LastHour(db, u, input.requestedAt)
           && (CooledDown(db.verifications, u, input.requestedAt) <==> !TooSoon(db, u, input.requestedAt))
    {
      SameHour(db, u, input.requestedAt);
    }
  }

  /** A resend that goes through revokes exactly the user's live rows, now, and adds one row and one
      event that may be claimed from its availability on. */
  lemma {:induction false} ResendTakesEffect(ops: seq<Op>, input: ResendInput, j: Uuid)
    requires Resend(After(EMPTY, ops), input).1.Resent?
    ensures var db, v, e := After(EMPTY, ops), input.verification, input.event;
            var after, at := Resend(db, input).0, input.requestedAt;
            && after.users == db.users && after.emails == db.emails
            && after.verifications.Keys == db.verifications.Keys + {v.id}
            && Lower(input.email) in db.emails
            && after.verifications[v.id] == VerificationRow(
                 db.emails[Lower(input.email)], v.tokenHash, Some(v.ciphertext), v.expiresAt, None, None, at)
            && after.outbox == db.outbox[e.id := OutboxTable.Row(
                 e.eventType, e.payload, e.createdAt, e.availableAt, None, None, None, None, 0, None)]
            && (j in db.verifications ==>
                  var row := db.verifications[j];
                  after.verifications[j] ==
                    if row.userId == db.emails[Lower(input.email)] && row.usedAt.None? && row.revokedAt.None?
                       && at < row.expiresAt
                    then row.(revokedAt := Some(at)) else row)
  {
  }

  // ---------------------------------------------------------------------------------------
  // Registering
  // ---------------------------------------------------------------------------------------

  /** An address that differs from a taken one in upper and lower case only exists already;
      otherwise the user is created unless an id is taken. */
  lemma {:induction false} CreateAnswers(ops: seq<Op>, input: CreateUserInput)
    requires input.id !in After(EMPTY, ops).users
    ensures var db := After(EMPTY, ops);
            var (after, reply) := CreateUser(db, input);
            && (reply == EmailExists <==> exists u :: u in db.users && Lower(db.users[u].email) == Lower(input.email))
            && (reply == UserCreated ==>
                  && after.users == db.users[input.id := UserRow(input.email, input.createdAt, None)]
                  && after.verifications == db.verifications[input.verification.id := VerificationRow(
                       input.id, input.verification.tokenHash, Some(input.verification.ciphertext),
                       input.verification.expiresAt, None, None, input.createdAt)]
                  && after.outbox == db.outbox[input.event.id := OutboxTable.Row(
                       input.event.eventType, input.event.payload, input.event.createdAt, input.event.availableAt,
                       None, None, None, None, 0, None)])
            && (reply == CreateFailed ==>
                  || input.verification.id in db.verifications || input.event.id in db.outbox
                  || input.verification.tokenHash in db.hashes || !input.event.payload.Object?)
            && (reply != UserCreated ==> after == db)
  {
    Invariant(ops);
    var db := After(EMPTY, ops);
    if Lower(input.email) in db.emails {
      assert Lower(db.users[db.emails[Lower(input.email)]].email) == Lower(input.email);
    }
  }

  // ---------------------------------------------------------------------------------------
  // Failing statements and commits
  // ---------------------------------------------------------------------------------------

  /** A call that fails under way changed nothing; one whose commit is not acknowledged has its effect
      but is answered with a failure. */
  lemma FaultsAnswerFailure(db: Tables, user: CreateUserInput, hash: Hash, at: Time, resend: ResendInput, fault: Fault)
    ensures fault.CommitUnacked? ==>
              && !CreateAttempt(db, user, fault).1.UserCreated? && CreateAttempt(db, user, fault).0 == CreateUser(db, user).0
              && !ConfirmAttempt(db, hash, at, fault).1.Confirmed?
              && ConfirmAttempt(db, hash, at, fault).0 == Confirm(db, hash, at).0
              && !ResendAttempt(db, resend, fault).1.Resent? && ResendAttempt(db, resend, fault).0 == Resend(db, resend).0
    ensures fault.FailsAt? && CreateAttempt(db, user, fault).1.CreateFailed? ==> CreateAttempt(db, user, fault).0 == db
    ensures fault.FailsAt? && ConfirmAttempt(db, hash, at, fault).1.ConfirmFailed? ==>
              ConfirmAttempt(db, hash, at, fault).0 == db
    ensures fault.FailsAt? && ResendAttempt(db, resend, fault).1.ResendFailed? ==> ResendAttempt(db, resend, fault).0 == db
  {
  }

  // ---------------------------------------------------------------------------------------
  // The limits, spelt out
  // ---------------------------------------------------------------------------------------

  /** Never more than five rows of a user in any closed hour, and never two within a minute. */
  lemma {:induction false} LimitsHold(ops: seq<Op>, u: Uuid, t: Time, i: Uuid, j: Uuid)
    ensures var db := After(EMPTY, ops);
            && |LastHour(db, u, t)| <= 5
            && (i in db.verifications && j in db.verifications && i != j
                && db.verifications[i].userId == db.verifications[j].userId
                && db.verifications[i].createdAt <= db.verifications[j].createdAt ==>
                  db.verifications[i].createdAt + 60_000_000_000 <= db.verifications[j].createdAt)
  {
    Invariant(ops);
    SameHour(After(EMPTY, ops), u, t);
    assert Apart(After(EMPTY, ops).verifications, i, j);
  }
}
