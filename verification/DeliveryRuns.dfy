/** What the handler answers and what becomes of the mail, over runs of the service and its workers
    (internal/outbox/processor.go, internal/handler/event/dispatcher.go,
    internal/service/auth/service.go). */
module DeliveryRuns {
  import opened Core
  import opened Codec
  import opened Crypto
  import opened OutboxTable
  import opened Verifications
  import opened Dispatch
  import opened VerificationService
  import Lifecycle = VerificationLifecycle
  import Workers
  import Backoff
  import opened Delivery

  // ---------------------------------------------------------------------------------------
  // Rows and their tokens
  // ---------------------------------------------------------------------------------------

  /** Every row expires one lifetime after it was created. */
  lemma {:induction false} RowsLastOneLifetime(s: Setting, actions: seq<Action>, id: Uuid)
    requires Sound(s.aead) && id in Run(s, actions).db.verifications
    ensures var v := Run(s, actions).db.verifications[id]; v.expiresAt == v.createdAt + s.lifetime
  {
    RunKeepsInv(s, actions);
    assert Sourced(s, Run(s, actions), id);
  }

  /** Confirming with the token of an unsettled row of an unverified user, at any instant before the
      row's creation plus the lifetime, succeeds; from then on it is expired. */
  lemma {:induction false} TokenConfirms(s: Setting, actions: seq<Action>, id: Uuid, raw: string, at: Time)
    requires Sound(s.aead) && id in Run(s, actions).db.verifications
    requires var v := Run(s, actions).db.verifications[id];
             v.usedAt.None? && v.revokedAt.None? && s.hash(raw) == v.tokenHash
    ensures var db := Run(s, actions).db;
            var v := db.verifications[id];
            && v.userId in db.users
            && (db.users[v.userId].verifiedAt.None? && at < v.createdAt + s.lifetime ==>
                  Verifications.Confirm(db, s.hash(raw), at).1 == Confirmed)
            && (v.createdAt + s.lifetime <= at ==> Verifications.Confirm(db, s.hash(raw), at).1 == ExpiredToken)
  {
    RowsLastOneLifetime(s, actions, id);
    RunKeepsInv(s, actions);
    ConfirmingByHash(Run(s, actions).db, id, at);
  }

  /** A registration or a resend that takes effect issues a row of its own stamp that lasts one
      lifetime and is confirmed by its token, and an event that may be claimed from that stamp on. */
  lemma {:induction false} IssuedRowIsUsable(s: Setting, actions: seq<Action>, a: Action, at: Time)
    requires Sound(s.aead) && (a.Register? || a.Resend?) && Usable(s, a.draws, a.email)
    requires Next(s, Run(s, actions), a) != Run(s, actions)
    ensures var db := Next(s, Run(s, actions), a).db;
            var raw := Base64(a.draws.random);
            && a.draws.id in db.verifications && a.draws.eventId in db.outbox
            && var v, e := db.verifications[a.draws.id], db.outbox[a.draws.eventId];
            && v.createdAt == a.now && v.expiresAt == a.now + s.lifetime && v.tokenHash == s.hash(raw)
            && v.userId in db.users && db.users[v.userId].email == a.email
            && (0 < s.lifetime ==> Live(v, a.now))
            && (at < a.now + s.lifetime ==> Verifications.Confirm(db, s.hash(raw), at).1 == Confirmed)
            && e.availableAt == a.now && e.createdAt == a.now && Pending(e) && e.lockedAt.None?
            && e.payload == Object(a.draws.id, a.email)
  {
    var w := Run(s, actions);
    var db := Lifecycle.Apply(w.db, OpOf(s, a));
    RunKeepsInv(s, actions);
    IssuedByAction(s, w, a);
    OwnerUnverified(s, w, a);
    ConfirmingByHash(db, a.draws.id, at);
  }

  lemma IssuedByAction(s: Setting, w: World, a: Action)
    requires Lifecycle.Inv(w.db) && w.db.outbox == w.ow.rows && (a.Register? || a.Resend?)
    requires Lifecycle.Apply(w.db, OpOf(s, a)) != w.db
    ensures Issued(s, w, Lifecycle.Apply(w.db, OpOf(s, a)), a.draws, a.email, a.now)
    ensures Lifecycle.Indexed(Lifecycle.Apply(w.db, OpOf(s, a)))
  {
    Lifecycle.ApplyKeepsInv(w.db, OpOf(s, a));
    if a.Register? {
      CreateIssues(s, w, a);
    } else {
      ResendIssues(s, w, a);
    }
  }

  lemma OwnerUnverified(s: Setting, w: World, a: Action)
    requires Lifecycle.Inv(w.db) && (a.Register? || a.Resend?) && Lifecycle.Apply(w.db, OpOf(s, a)) != w.db
    ensures var db := Lifecycle.Apply(w.db, OpOf(s, a));
            && a.draws.id in db.verifications && db.verifications[a.draws.id].userId in db.users
            && db.users[db.verifications[a.draws.id].userId].verifiedAt.None?
  {
    Lifecycle.AllOrNothing(w.db, OpOf(s, a));
    if a.Resend? {
      Lifecycle.ResendAddsNewest(w.db, OpOf(s, a).resend);
    }
  }

  // ---------------------------------------------------------------------------------------
  // What the handler answers
  // ---------------------------------------------------------------------------------------

  /** The verification that worker `n` handles. */
  function Handled(w: World, n: nat): VerificationRow
    requires n in w.ow.workers && w.ow.workers[n].Busy() && w.ow.workers[n].event.id in w.letters
    requires w.letters[w.ow.workers[n].event.id].verification in w.db.verifications
  {
    w.db.verifications[w.letters[w.ow.workers[n].event.id].verification]
  }

  lemma HandledExists(s: Setting, w: World, n: nat)
    requires Linked(s, w) && n in w.ow.workers && w.ow.workers[n].Busy()
    ensures var e := w.ow.workers[n].event.id;
            && e in w.letters && w.letters[e].verification in w.db.verifications
            && Handled(w, n).userId in w.db.users
            && w.letters[e].recipient == w.db.users[Handled(w, n).userId].email
  {
    assert WorkerInv(s, w, n);
    assert LetterInv(w, w.ow.workers[n].event.id);
  }

  /** The worker goes on to mark its event with this kind of result. */
  predicate Concludes(w: World, late: World, n: nat, succeeded: bool)
    requires n in w.ow.workers && w.ow.workers[n].Busy()
  {
    && n in late.ow.workers && late.ow.workers[n].Marking?
    && late.ow.workers[n].event == w.ow.workers[n].event && late.ow.workers[n].lockId == w.ow.workers[n].lockId
    && if succeeded then late.ow.workers[n].result.Succeeded? else late.ow.workers[n].result.Retryable?
  }

  lemma ReadingAnswers(s: Setting, w: World, n: nat, readFails: bool)
    requires n in w.ow.workers && w.ow.workers[n].Handling? && WorkerInv(s, w, n)
    requires w.ow.workers[n].event.id in w.letters && LetterInv(w, w.ow.workers[n].event.id)
    requires Lifecycle.Consistent(Handled(w, n), w.db.users)
    requires Crafted(s, w.letters[w.ow.workers[n].event.id].verification, Handled(w, n))
    ensures var reading := ReadStep(w.db.verifications, w.ow.workers[n].event, readFails);
            if readFails then reading.Stop? && reading.result.Retryable?
            else if Unsettled(Handled(w, n)) then reading.Loaded?
            else reading == Stop(Workers.Succeeded)
  {
    var raw :| && TokenOf(s, Handled(w, n), raw)
               && (Handled(w, n).ciphertext.Some? ==>
                     && Handled(w, n).ciphertext.value != []
                     && Decrypted(s.aead, Handled(w, n).ciphertext.value,
                                  w.letters[w.ow.workers[n].event.id].verification) == Plain(TextBytes(raw)));
  }

  lemma LoadedStep(s: Setting, w: World, n: nat, readFails: bool)
    requires Workers.WorkerAt(w.ow, n).Handling?
    requires ReadStep(w.db.verifications, w.ow.workers[n].event, readFails).Loaded?
    ensures Next(s, w, Read(n, readFails)) == w.(inHand := w.inHand[n := InHand(
              w.ow.workers[n].lockId, ReadStep(w.db.verifications, w.ow.workers[n].event, readFails))])
  {
  }

  lemma StoppedStep(s: Setting, w: World, n: nat, readFails: bool)
    requires Workers.WorkerAt(w.ow, n).Handling?
    requires ReadStep(w.db.verifications, w.ow.workers[n].event, readFails).Stop?
    ensures var late := Next(s, w, Read(n, readFails));
            && late.sent == w.sent && n in late.ow.workers && late.ow.workers[n].Marking?
            && late.ow.workers[n].event == w.ow.workers[n].event && late.ow.workers[n].lockId == w.ow.workers[n].lockId
            && late.ow.workers[n].result == ReadStep(w.db.verifications, w.ow.workers[n].event, readFails).result
  {
  }

  /** A failed read is worth another try; a settled row is a success without a mail; any other row is
      handed on to be sent. */
  lemma {:induction false} ReadAnswers(s: Setting, w: World, n: nat, readFails: bool)
    requires Inv(s, w) && Workers.WorkerAt(w.ow, n).Handling?
    ensures var late := Next(s, w, Read(n, readFails));
            && w.ow.workers[n].event.id in w.letters
            && w.letters[w.ow.workers[n].event.id].verification in w.db.verifications
            && late.sent == w.sent
            && if readFails then Concludes(w, late, n, false)
               else if Handled(w, n).usedAt.Some? || Handled(w, n).revokedAt.Some? then Concludes(w, late, n, true)
               else
                 && late == w.(inHand := w.inHand[n := InHand(
                      w.ow.workers[n].lockId, ReadStep(w.db.verifications, w.ow.workers[n].event, false))])
                 && late.inHand[n].reading.Loaded?
  {
    HandledExists(s, w, n);
    assert WorkerInv(s, w, n) && LetterInv(w, w.ow.workers[n].event.id);
    var id := w.letters[w.ow.workers[n].event.id].verification;
    assert Sourced(s, w, id) && Lifecycle.Consistent(w.db.verifications[id], w.db.users);
    ReadingAnswers(s, w, n, readFails);
    if ReadStep(w.db.verifications, w.ow.workers[n].event, readFails).Loaded? {
      LoadedStep(s, w, n, readFails);
    } else {
      StoppedStep(s, w, n, readFails);
    }
  }

  lemma SendingAnswers(s: Setting, w: World, n: nat, fate: Fate) returns (raw: string)
    requires Enabled(s, w, Send(n, fate)) && HandInv(s, w, n)
    requires w.ow.workers[n].event.id in w.letters
    ensures w.letters[w.ow.workers[n].event.id].verification in w.db.verifications
    ensures TokenOf(s, Handled(w, n), raw)
    ensures var (result, message) := SendStep(s.aead, s.baseURL, w.inHand[n].reading, w.ow.clock, fate);
            if Handled(w, n).expiresAt <= w.ow.clock then result.Succeeded? && message.None?
            else
              && (if fate == Delivered then result.Succeeded? else result.Retryable?)
              && message == if fate == Lost then None
                            else Some(Message(w.letters[w.ow.workers[n].event.id].recipient, Link(s.baseURL, raw)))
  {
    var reading := w.inHand[n].reading;
    raw :| TokenOf(s, Handled(w, n), raw) && Decrypted(s.aead, reading.ciphertext, reading.id) == Plain(TextBytes(raw));
    assert ByteText(raw) by {
      assert TokenOf(s, Handled(w, n), raw);
    }
    TextRoundTrip(raw);
  }

  /** Sending an expired row is a success without a mail.  Otherwise the link with the row's token goes
      to its owner unless it is lost, and the answer is a success exactly if the sender says so. */
  lemma {:induction false} SendAnswers(s: Setting, w: World, n: nat, fate: Fate) returns (raw: string)
    requires Linked(s, w) && Enabled(s, w, Send(n, fate))
    ensures var late := Next(s, w, Send(n, fate));
            && w.ow.workers[n].event.id in w.letters
            && w.letters[w.ow.workers[n].event.id].verification in w.db.verifications
            && Handled(w, n).userId in w.db.users && TokenOf(s, Handled(w, n), raw)
            && if Handled(w, n).expiresAt <= w.ow.clock then Concludes(w, late, n, true) && late.sent == w.sent
               else
                 && Concludes(w, late, n, fate == Delivered)
                 && late.sent == if fate == Lost then w.sent
                                 else w.sent + {Message(w.db.users[Handled(w, n).userId].email, Link(s.baseURL, raw))}
  {
    HandledExists(s, w, n);
    assert HandInv(s, w, n);
    raw := SendingAnswers(s, w, n, fate);
  }

  // ---------------------------------------------------------------------------------------
  // One event served without failure
  // ---------------------------------------------------------------------------------------

  function RunFrom(s: Setting, w: World, actions: seq<Action>): World
    decreases |actions|
  {
    if actions == [] then w else RunFrom(s, Next(s, w, actions[0]), actions[1..])
  }

  lemma {:induction false} RunFromKeepsInv(s: Setting, w: World, actions: seq<Action>)
    requires Sound(s.aead) && Inv(s, w)
    ensures Inv(s, RunFrom(s, w, actions))
    decreases |actions|
  {
    if actions != [] {
      NextKeepsInv(s, w, actions[0]);
      RunFromKeepsInv(s, Next(s, w, actions[0]), actions[1..]);
    }
  }

  /** Worker `n` claims event `e` and starts on it. */
  function Taken(s: Setting, w: World, n: nat, lockId: Uuid, e: Uuid): World {
    Next(s, Next(s, Next(s, w, Work(Workers.Ask(n, lockId))), Work(Workers.Claim(n, e, {}))), Work(Workers.Start(n)))
  }

  predicate Served(w: World, n: nat, lockId: Uuid, e: Uuid) {
    && Workers.WorkerAt(w.ow, n).Idle? && lockId !in w.ow.usedLocks
    && Candidate(w.ow.rows, w.ow.clock, w.ow.clock - Workers.LOCK_LEASE, {}, e) && e in w.ow.ledgers
  }

  lemma TakenIs(s: Setting, w: World, n: nat, lockId: Uuid, e: Uuid)
    requires Served(w, n, lockId, e)
    ensures var late, claimed := Taken(s, w, n, lockId, e), Claimed(w.ow.rows[e], lockId, w.ow.clock);
            && late.sent == w.sent && late.letters == w.letters && late.ow.clock == w.ow.clock
            && late.db == w.db.(outbox := w.ow.rows[e := claimed]) && late.ow.rows == w.ow.rows[e := claimed]
            && late.ow.usedLocks == w.ow.usedLocks + {lockId}
            && Workers.WorkerAt(late.ow, n) ==
                 Workers.Handling(lockId, w.ow.clock, EventOf(e, claimed), w.ow.clock + s.workTimeout)
  {
  }

  /** The five steps from asking to the handler's answer, none of which fails but the mail perhaps. */
  function Attempt(n: nat, lockId: Uuid, e: Uuid, fate: Fate): seq<Action> {
    [Work(Workers.Ask(n, lockId)), Work(Workers.Claim(n, e, {})), Work(Workers.Start(n)), Read(n, false), Send(n, fate)]
  }

  lemma AttemptIs(s: Setting, w: World, n: nat, lockId: Uuid, e: Uuid, fate: Fate)
    ensures RunFrom(s, w, Attempt(n, lockId, e, fate))
         == Next(s, Next(s, Taken(s, w, n, lockId, e), Read(n, false)), Send(n, fate))
  {
    var ask, claim, start := Work(Workers.Ask(n, lockId)), Work(Workers.Claim(n, e, {})), Work(Workers.Start(n));
    var w1 := Next(s, w, ask);
    var w2 := Next(s, w1, claim);
    var w3 := Next(s, w2, start);
    FirstStep(s, w, ask, [claim, start, Read(n, false), Send(n, fate)]);
    FirstStep(s, w1, claim, [start, Read(n, false), Send(n, fate)]);
    FirstStep(s, w2, start, [Read(n, false), Send(n, fate)]);
    FirstStep(s, w3, Read(n, false), [Send(n, fate)]);
    FirstStep(s, Next(s, w3, Read(n, false)), Send(n, fate), []);
  }

  lemma FirstStep(s: Setting, w: World, a: Action, rest: seq<Action>)
    ensures RunFrom(s, w, [a] + rest) == RunFrom(s, Next(s, w, a), rest)
  {
    assert ([a] + rest)[1..] == rest;
  }

  lemma {:induction false} RunsCompose(s: Setting, w: World, first: seq<Action>, rest: seq<Action>)
    ensures RunFrom(s, w, first + rest) == RunFrom(s, RunFrom(s, w, first), rest)
    decreases |first|
  {
    if first == [] {
      assert first + rest == rest;
    } else {
      FirstStep(s, w, first[0], first[1..] + rest);
      assert first + rest == [first[0]] + (first[1..] + rest);
      RunsCompose(s, Next(s, w, first[0]), first[1..], rest);
    }
  }

  lemma TakenKeepsInv(s: Setting, w: World, n: nat, lockId: Uuid, e: Uuid)
    requires Sound(s.aead) && Inv(s, w)
    ensures Inv(s, Taken(s, w, n, lockId, e))
  {
    var w1 := Next(s, w, Work(Workers.Ask(n, lockId)));
    NextKeepsInv(s, w, Work(Workers.Ask(n, lockId)));
    NextKeepsInv(s, w1, Work(Workers.Claim(n, e, {})));
    NextKeepsInv(s, Next(s, w1, Work(Workers.Claim(n, e, {}))), Work(Workers.Start(n)));
  }

  /** What a send does to the rest of the world. */
  lemma SendStepIs(s: Setting, w: World, n: nat, fate: Fate)
    requires Enabled(s, w, Send(n, fate)) && w.db.outbox == w.ow.rows
    ensures var late := Next(s, w, Send(n, fate));
            && late.db == w.db && late.letters == w.letters && late.inHand == w.inHand
            && late.ow == w.ow.(workers := late.ow.workers)
            && n in late.ow.workers && late.ow.workers[n].Marking? && late.ow.workers[n].handledAt == w.ow.clock
            && late.ow.workers == w.ow.workers[n := late.ow.workers[n]]
  {
  }

  /** In every reachable world a live event whose turn it is can be attempted: the mail leaves unless
      it is lost, and the worker is left with the sender's answer. */
  lemma {:induction false} AttemptTakesEffect(
      s: Setting, w: World, n: nat, lockId: Uuid, e: Uuid, fate: Fate) returns (raw: string)
    requires Sound(s.aead) && Inv(s, w) && Served(w, n, lockId, e)
    requires e in w.letters && w.letters[e].verification in w.db.verifications
    requires Live(w.db.verifications[w.letters[e].verification], w.ow.clock)
    ensures var v := w.db.verifications[w.letters[e].verification];
            var late, claimed := RunFrom(s, w, Attempt(n, lockId, e, fate)), Claimed(w.ow.rows[e], lockId, w.ow.clock);
            && Inv(s, late) && TokenOf(s, v, raw) && v.userId in w.db.users
            && late.ow.clock == w.ow.clock && late.ow.usedLocks == w.ow.usedLocks + {lockId} && late.letters == w.letters
            && late.ow.rows == w.ow.rows[e := claimed] && late.db == w.db.(outbox := w.ow.rows[e := claimed])
            && n in late.ow.workers && late.ow.workers[n].Marking? && late.ow.workers[n].lockId == lockId
            && late.ow.workers[n].event == EventOf(e, claimed) && late.ow.workers[n].handledAt == w.ow.clock
            && (if fate == Delivered then late.ow.workers[n].result.Succeeded? else late.ow.workers[n].result.Retryable?)
            && late.sent == if fate == Lost then w.sent
                            else w.sent + {Message(w.db.users[v.userId].email, Link(s.baseURL, raw))}
  {
    AttemptIs(s, w, n, lockId, e, fate);
    TakenKeepsInv(s, w, n, lockId, e);
    TakenIs(s, w, n, lockId, e);
    var taken := Taken(s, w, n, lockId, e);
    ReadAnswers(s, taken, n, false);
    var loaded := Next(s, taken, Read(n, false));
    NextKeepsInv(s, taken, Read(n, false));
    raw := SendAnswers(s, loaded, n, fate);
    SendStepIs(s, loaded, n, fate);
    NextKeepsInv(s, loaded, Send(n, fate));
  }

  /** The mark that follows, at once and under the worker's own lock. */
  function Finished(n: nat, at: Time, draw: Backoff.Draw): Action {
    Work(Workers.MarkEvent(n, at, draw, true))
  }

  lemma MarkConcludes(s: Setting, w: World, n: nat, draw: Backoff.Draw)
    requires Workers.Inv(w.ow) && Workers.WorkerAt(w.ow, n).Marking? && w.ow.workers[n].handledAt <= w.ow.clock
    requires w.ow.workers[n].event.id in w.ow.rows
    requires w.ow.rows[w.ow.workers[n].event.id].lockId == Some(w.ow.workers[n].lockId)
    ensures var late, e := Next(s, w, Finished(n, w.ow.clock, draw)), w.ow.workers[n].event.id;
            && late.sent == w.sent && late.letters == w.letters && late.db.outbox == late.ow.rows
            && e in late.ow.rows && e in late.db.outbox
            && Workers.Concluded(late.ow.rows[e], w.ow.workers[n].result, w.ow.rows[e].attempts, w.ow.clock)
  {
    var worker := w.ow.workers[n];
    assert Workers.WorkerInv(w.ow, n) && Workers.RowInv(w.ow, worker.event.id);
    Backoff.DelayBounds(worker.event.attempts, draw);
  }

  /** Progress: from every reachable world, six steps without a failure mail a live event whose turn
      it is to its owner and process it. */
  lemma {:induction false} LiveEventCanBeDelivered(
      s: Setting, actions: seq<Action>, n: nat, lockId: Uuid, e: Uuid, draw: Backoff.Draw) returns (raw: string)
    requires Sound(s.aead) && Served(Run(s, actions), n, lockId, e)
    requires var w := Run(s, actions);
             && e in w.letters && w.letters[e].verification in w.db.verifications
             && Live(w.db.verifications[w.letters[e].verification], w.ow.clock)
    ensures var w := Run(s, actions);
            var v := w.db.verifications[w.letters[e].verification];
            var late := RunFrom(s, w, Attempt(n, lockId, e, Delivered) + [Finished(n, w.ow.clock, draw)]);
            && s.hash(raw) == v.tokenHash && ByteText(raw) && v.userId in w.db.users
            && late.sent == w.sent + {Message(w.db.users[v.userId].email, Link(s.baseURL, raw))}
            && e in late.db.outbox && late.db.outbox[e].processedAt == Some(w.ow.clock)
  {
    var w := Run(s, actions);
    RunKeepsInv(s, actions);
    raw := AttemptTakesEffect(s, w, n, lockId, e, Delivered);
    var sent := RunFrom(s, w, Attempt(n, lockId, e, Delivered));
    MarkConcludes(s, sent, n, draw);
    RunsCompose(s, w, Attempt(n, lockId, e, Delivered), [Finished(n, w.ow.clock, draw)]);
    FirstStep(s, sent, Finished(n, w.ow.clock, draw), []);
  }

  lemma FirstRegistration(s: Setting, userId: Uuid, email: string, draws: Draws)
    requires Usable(s, draws, email)
    ensures var w := Run(s, [Register(userId, email, 0, draws, Healthy)]);
            && w.ow.clock == 0 && w.ow.workers == map[] && w.ow.usedLocks == {} && w.sent == {}
            && w.ow.rows.Keys == {draws.eventId} && w.ow.ledgers.Keys == {draws.eventId}
            && w.ow.rows[draws.eventId] == NewEvent(EventFor(draws, email, 0))
            && w.letters == map[draws.eventId := Letter(draws.id, email)]
            && w.db.verifications.Keys == {draws.id}
            && w.db.verifications[draws.id].expiresAt == s.lifetime && Unsettled(w.db.verifications[draws.id])
            && w.db.verifications[draws.id].tokenHash == s.hash(Base64(draws.random))
            && w.db.verifications[draws.id].userId == userId
            && userId in w.db.users && w.db.users[userId].email == email
  {
    var first := Register(userId, email, 0, draws, Healthy);
    assert [first][..0] == [] && Run(s, []) == START;
    assert Run(s, [first]) == Next(s, START, first);
    assert Lifecycle.Apply(EMPTY, OpOf(s, first)) == CreateUser(EMPTY, OpOf(s, first).user).0;
  }

  /** From a registration to the mail: the first seven steps of a service without failures. */
  lemma {:induction false} RegistrationIsMailed(
      s: Setting, userId: Uuid, email: string, draws: Draws, lockId: Uuid, draw: Backoff.Draw)
    requires Sound(s.aead) && Injective(s.hash) && Usable(s, draws, email) && 0 < s.lifetime
    ensures var first := Register(userId, email, 0, draws, Healthy);
            var late := RunFrom(s, Run(s, [first]), Attempt(0, lockId, draws.eventId, Delivered) + [Finished(0, 0, draw)]);
            && late.sent == {Message(email, Link(s.baseURL, Base64(draws.random)))}
            && draws.eventId in late.db.outbox && late.db.outbox[draws.eventId].processedAt == Some(0)
  {
    var first := Register(userId, email, 0, draws, Healthy);
    var w := Run(s, [first]);
    FirstRegistration(s, userId, email, draws);
    assert Served(w, 0, lockId, draws.eventId);
    var raw := LiveEventCanBeDelivered(s, [first], 0, lockId, draws.eventId, draw);
  }

  // ---------------------------------------------------------------------------------------
  // Delivered mail and failed events
  // ---------------------------------------------------------------------------------------

  /** This send hands the mail over and the sender says so. */
  predicate HandsOver(s: Setting, w: World, a: Action) {
    && a.Send? && Enabled(s, w, a) && a.fate == Delivered
    && SendStep(s.aead, s.baseURL, w.inHand[a.worker].reading, w.ow.clock, a.fate).1.Some?
  }

  /** For which event a mail was handed over, by the lock of the claim under which it was. */
  function HandedOver(s: Setting, actions: seq<Action>): map<Uuid, Uuid> {
    if actions == [] then map[]
    else
      var front, last := actions[..|actions| - 1], actions[|actions| - 1];
      var w := Run(s, front);
      if HandsOver(s, w, last)
      then HandedOver(s, front)[w.ow.workers[last.worker].lockId := w.ow.workers[last.worker].event.id]
      else HandedOver(s, front)
  }

  /** Whoever still has the claim is about to mark it a success; once it is marked, the event is
      processed. */
  ghost predicate HandedInv(w: World, l: Uuid, e: Uuid) {
    && l in w.ow.usedLocks && e in w.ow.rows
    && (forall n :: n in w.ow.workers && !w.ow.workers[n].Idle? && w.ow.workers[n].lockId == l ==>
          w.ow.workers[n].Marking? && w.ow.workers[n].result.Succeeded? && w.ow.workers[n].event.id == e)
    && (l in w.ow.marked ==> w.ow.rows[e].processedAt.Some?)
  }

  lemma MovingKeepsHanded(s: Setting, w: World, b: Workers.Action, l: Uuid, e: Uuid)
    requires Workers.Inv(w.ow) && HandedInv(w, l, e)
    ensures HandedInv(w.(ow := Workers.Next(w.ow, s.workTimeout, b)), l, e)
  {
    if Workers.Enabled(w.ow, b) && b.MarkEvent? && b.effective {
      MarkKeepsHanded(w, b.worker, b.at, b.draw, l, e);
    }
  }

  lemma MarkKeepsHanded(w: World, n: nat, at: Time, draw: Backoff.Draw, l: Uuid, e: Uuid)
    requires Workers.Inv(w.ow) && HandedInv(w, l, e) && Workers.WorkerAt(w.ow, n).Marking?
    ensures HandedInv(w.(ow := Workers.MarkStep(w.ow, n, at, draw)), l, e)
  {
  }

  lemma HandedDependsOnWorkers(w: World, late: World, l: Uuid, e: Uuid)
    requires HandedInv(w, l, e) && late.ow == w.ow
    ensures HandedInv(late, l, e)
  {
  }

  lemma NextIsMove(s: Setting, w: World, a: Action) returns (b: Workers.Action)
    ensures Next(s, w, a).ow == w.ow || Next(s, w, a).ow == Workers.Next(w.ow, s.workTimeout, b)
  {
    b := match a
      case Work(c) => c
      case Read(n, readFails) =>
        if Enabled(s, w, a) && ReadStep(w.db.verifications, w.ow.workers[n].event, readFails).Stop?
        then Workers.Handle(n, ReadStep(w.db.verifications, w.ow.workers[n].event, readFails).result)
        else Workers.Leave(n)
      case Send(n, fate) =>
        if Enabled(s, w, a)
        then Workers.Handle(n, SendStep(s.aead, s.baseURL, w.inHand[n].reading, w.ow.clock, fate).0)
        else Workers.Leave(n)
      case Register(_, email, now, draws, _) => Workers.Insert(draws.eventId, NewEvent(EventFor(draws, email, now)))
      case Resend(email, now, draws, _) => Workers.Insert(draws.eventId, NewEvent(EventFor(draws, email, now)))
      case _ => Workers.Leave(0);
  }

  lemma NextKeepsHanded(s: Setting, w: World, a: Action, l: Uuid, e: Uuid)
    requires Workers.Inv(w.ow) && HandedInv(w, l, e)
    ensures HandedInv(Next(s, w, a), l, e)
  {
    var b := NextIsMove(s, w, a);
    MovingKeepsHanded(s, w, b, l, e);
    if Next(s, w, a).ow == w.ow {
      HandedDependsOnWorkers(w, Next(s, w, a), l, e);
    } else {
      HandedDependsOnWorkers(w.(ow := Workers.Next(w.ow, s.workTimeout, b)), Next(s, w, a), l, e);
    }
  }

  lemma HandingOver(s: Setting, w: World, a: Action)
    requires Inv(s, w) && HandsOver(s, w, a)
    ensures HandedInv(Next(s, w, a), w.ow.workers[a.worker].lockId, w.ow.workers[a.worker].event.id)
  {
    var n := a.worker;
    var raw := SendAnswers(s, w, n, a.fate);
    SendStepIs(s, w, n, a.fate);
    assert Workers.WorkerInv(w.ow, n);
    forall m | m in w.ow.workers && m != n && !w.ow.workers[m].Idle?
      ensures w.ow.workers[m].lockId != w.ow.workers[n].lockId
    {
      assert Workers.OwnLocks(w.ow, m, n);
    }
  }

  lemma {:induction false} HandedKept(s: Setting, actions: seq<Action>, l: Uuid)
    requires Sound(s.aead) && l in HandedOver(s, actions)
    ensures HandedInv(Run(s, actions), l, HandedOver(s, actions)[l])
  {
    var front, last := actions[..|actions| - 1], actions[|actions| - 1];
    var w := Run(s, front);
    RunKeepsInv(s, front);
    if HandsOver(s, w, last) && l == w.ow.workers[last.worker].lockId {
      HandingOver(s, w, last);
    } else {
      HandedKept(s, front, l);
      NextKeepsHanded(s, w, last, l, HandedOver(s, front)[l]);
    }
  }

  /** A mail that was handed over makes its event processed as soon as the mark of that claim takes
      effect.  So an event fails only if that mark was lost for every mail of it handed over. */
  lemma {:induction false} FailureMeansUnmarked(s: Setting, actions: seq<Action>, l: Uuid)
    requires Sound(s.aead) && l in HandedOver(s, actions)
    ensures var w, e := Run(s, actions), HandedOver(s, actions)[l];
            && e in w.db.outbox
            && (l in w.ow.marked ==> w.db.outbox[e].processedAt.Some?)
            && (w.db.outbox[e].failedAt.Some? ==> l !in w.ow.marked)
  {
    HandedKept(s, actions, l);
    RunKeepsInv(s, actions);
    var w, e := Run(s, actions), HandedOver(s, actions)[l];
    assert Workers.RowInv(w.ow, e);
  }

  // One worker that delivers the mail and crashes, again and again, and whose last mail is lost.

  const ROUND: Time := 61 * SECOND

  /** The only event was claimed `k` times, each time by a worker that crashed. */
  ghost predicate Crashed(w: World, e: Uuid, k: byte) {
    && w.ow.rows.Keys == {e} && e in w.letters
    && w.letters[e].verification in w.db.verifications
    && Unsettled(w.db.verifications[w.letters[e].verification])
    && w.ow.clock == k as int * ROUND
    && 10 * ROUND < w.db.verifications[w.letters[e].verification].expiresAt
    && Workers.WorkerAt(w.ow, 0).Idle? && (forall l :: l in w.ow.usedLocks ==> l[0] < k)
    && var row := w.ow.rows[e];
       && Pending(row) && row.attempts == k as int && row.availableAt <= w.ow.clock
       && (row.lockedAt.Some? ==> row.lockedAt.value < w.ow.clock - Workers.LOCK_LEASE)
  }

  function Leaving(k: byte): seq<Action> {
    [Work(Workers.Leave(0)), Work(Workers.Tick((k as int + 1) * ROUND))]
  }

  lemma CrashedIsServed(w: World, e: Uuid, k: byte)
    requires k < 10 && Crashed(w, e, k) && e in w.ow.ledgers
    ensures Served(w, 0, Lifecycle.Numbered(k), e)
    ensures Live(w.db.verifications[w.letters[e].verification], w.ow.clock)
  {
  }

  lemma LeavingIs(s: Setting, w: World, k: byte)
    requires w.db.outbox == w.ow.rows && w.ow.clock <= (k as int + 1) * ROUND
    ensures RunFrom(s, w, Leaving(k)) == w.(ow := w.ow.(
              clock := (k as int + 1) * ROUND, workers := w.ow.workers[0 := Workers.Idle]))
  {
    var left := Next(s, w, Work(Workers.Leave(0)));
    FirstStep(s, w, Work(Workers.Leave(0)), [Work(Workers.Tick((k as int + 1) * ROUND))]);
    FirstStep(s, left, Work(Workers.Tick((k as int + 1) * ROUND)), []);
    assert Leaving(k) == [Work(Workers.Leave(0))] + [Work(Workers.Tick((k as int + 1) * ROUND))];
  }

  function CrashRound(e: Uuid, k: byte): seq<Action> {
    Attempt(0, Lifecycle.Numbered(k), e, Delivered) + Leaving(k)
  }

  lemma CrashedAgain(w: World, mailed: World, late: World, e: Uuid, k: byte)
    requires k < 9 && Crashed(w, e, k)
    requires mailed.letters == w.letters && mailed.ow.usedLocks == w.ow.usedLocks + {Lifecycle.Numbered(k)}
    requires mailed.ow.rows == w.ow.rows[e := Claimed(w.ow.rows[e], Lifecycle.Numbered(k), w.ow.clock)]
    requires mailed.db.verifications == w.db.verifications
    requires late == mailed.(ow := mailed.ow.(
               clock := (k as int + 1) * ROUND, workers := mailed.ow.workers[0 := Workers.Idle]))
    ensures Crashed(late, e, k + 1)
  {
  }

  lemma {:induction false} CrashOnce(s: Setting, w: World, e: Uuid, k: byte)
    requires Sound(s.aead) && k < 9 && Inv(s, w) && Crashed(w, e, k)
    ensures var late := RunFrom(s, w, CrashRound(e, k));
            Inv(s, late) && Crashed(late, e, k + 1) && late.sent != {}
  {
    var attempt := Attempt(0, Lifecycle.Numbered(k), e, Delivered);
    assert Workers.RowInv(w.ow, e);
    CrashedIsServed(w, e, k);
    var raw := AttemptTakesEffect(s, w, 0, Lifecycle.Numbered(k), e, Delivered);
    var mailed := RunFrom(s, w, attempt);
    RunsCompose(s, w, attempt, Leaving(k));
    LeavingIs(s, mailed, k);
    CrashedAgain(w, mailed, RunFrom(s, mailed, Leaving(k)), e, k);
    RunFromKeepsInv(s, mailed, Leaving(k));
    var v := w.db.verifications[w.letters[e].verification];
    assert Message(w.db.users[v.userId].email, Link(s.baseURL, raw)) in mailed.sent;
  }

  function Crashes(e: Uuid, k: byte): seq<Action>
    decreases k
  {
    if k == 0 then [] else Crashes(e, k - 1) + CrashRound(e, k - 1)
  }

  lemma {:induction false} CrashOften(s: Setting, w: World, e: Uuid, k: byte)
    requires Sound(s.aead) && k <= 9 && Inv(s, w) && Crashed(w, e, 0)
    ensures var late := RunFrom(s, w, Crashes(e, k));
            Inv(s, late) && Crashed(late, e, k) && (k > 0 ==> late.sent != {})
    decreases k
  {
    if k > 0 {
      CrashOften(s, w, e, k - 1);
      CrashOnce(s, RunFrom(s, w, Crashes(e, k - 1)), e, k - 1);
      RunsCompose(s, w, Crashes(e, k - 1), CrashRound(e, k - 1));
    }
  }

  lemma {:induction false} FailsAtLast(s: Setting, w: World, e: Uuid, draw: Backoff.Draw)
    requires Sound(s.aead) && Inv(s, w) && Crashed(w, e, 9)
    ensures var late := RunFrom(s, w, Attempt(0, Lifecycle.Numbered(9), e, Lost) + [Finished(0, 9 * ROUND, draw)]);
            late.sent == w.sent && e in late.db.outbox && late.db.outbox[e].failedAt.Some?
  {
    assert Workers.RowInv(w.ow, e);
    CrashedIsServed(w, e, 9);
    var raw := AttemptTakesEffect(s, w, 0, Lifecycle.Numbered(9), e, Lost);
    var lost := RunFrom(s, w, Attempt(0, Lifecycle.Numbered(9), e, Lost));
    MarkConcludes(s, lost, 0, draw);
    RunsCompose(s, w, Attempt(0, Lifecycle.Numbered(9), e, Lost), [Finished(0, 9 * ROUND, draw)]);
    FirstStep(s, lost, Finished(0, 9 * ROUND, draw), []);
  }

  /** The marks must not be lost: after a registration, nine workers that deliver the mail and crash
      and a tenth whose mail is lost leave an event that failed although its mail was handed over. */
  lemma {:induction false} DeliveredEventMayFail(
      s: Setting, userId: Uuid, email: string, draws: Draws, draw: Backoff.Draw)
    requires Sound(s.aead) && Usable(s, draws, email) && 11 * MINUTE <= s.lifetime
    ensures var w := Run(s, [Register(userId, email, 0, draws, Healthy)]);
            var e := draws.eventId;
            var late := RunFrom(s, w, Crashes(e, 9) + (Attempt(0, Lifecycle.Numbered(9), e, Lost)
                                                       + [Finished(0, 9 * ROUND, draw)]));
            late.sent != {} && e in late.db.outbox && late.db.outbox[e].failedAt.Some?
  {
    var w, e := Run(s, [Register(userId, email, 0, draws, Healthy)]), draws.eventId;
    FirstRegistration(s, userId, email, draws);
    RunKeepsInv(s, [Register(userId, email, 0, draws, Healthy)]);
    CrashOften(s, w, e, 9);
    FailsAtLast(s, RunFrom(s, w, Crashes(e, 9)), e, draw);
    RunsCompose(s, w, Crashes(e, 9), Attempt(0, Lifecycle.Numbered(9), e, Lost) + [Finished(0, 9 * ROUND, draw)]);
  }
}
