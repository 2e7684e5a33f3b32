/** From the verification row to the mail: the service, the workers and the dispatcher over one
    database and one clock (internal/service/auth/service.go, internal/outbox/processor.go,
    internal/handler/event/dispatcher.go, internal/adapter/repository/postgres). */
module Delivery {
  import opened Core
  import opened Codec
  import opened Crypto
  import opened OutboxTable
  import opened Verifications
  import opened Dispatch
  import opened VerificationService
  import Lifecycle = VerificationLifecycle
  import Workers
  import Backoff

  datatype Setting = Setting(
    hash: string -> Hash, aead: Aead, baseURL: string, lifetime: Time, workTimeout: Time)

  /** Which row an event was written for, and for whom; the payload is erased once processed. */
  datatype Letter = Letter(verification: Uuid, recipient: string)

  /** A worker between reading the verification and sending. */
  datatype InHand = InHand(lockId: Uuid, reading: Reading)

  datatype World = World(
    db: Tables,
    ow: Workers.World,
    inHand: map<nat, InHand>,
    sent: set<Message>,
    letters: map<Uuid, Letter>)

  const START := World(EMPTY, Workers.EMPTY, map[], {}, map[])

  datatype Action =
    | Register(userId: Uuid, email: string, now: Time, draws: Draws, fault: Fault)
    | Resend(email: string, now: Time, draws: Draws, fault: Fault)
    | Confirm(hash: Hash, at: Time, fault: Fault)
    | Work(action: Workers.Action)
    | Read(worker: nat, readFails: bool)
    | Send(worker: nat, fate: Fate)

  /** Draws of the right sizes, an id that is not nil and an address that is not empty. */
  predicate Usable(s: Setting, draws: Draws, email: string) {
    |draws.random| == TOKEN_SIZE && |draws.nonce| == s.aead.nonceSize && draws.id != NIL_UUID && email != ""
  }

  predicate Enabled(s: Setting, w: World, a: Action) {
    match a
    case Register(_, email, _, draws, _) => Usable(s, draws, email)
    case Resend(email, _, draws, _) => Usable(s, draws, email)
    case Confirm(_, _, _) => true
    case Work(b) => !b.Insert? && !b.Handle?
    case Read(n, _) => Workers.WorkerAt(w.ow, n).Handling?
    case Send(n, _) =>
      && Workers.WorkerAt(w.ow, n).Handling?
      && n in w.inHand && w.inHand[n].lockId == w.ow.workers[n].lockId && w.inHand[n].reading.Loaded?
  }

  function OpOf(s: Setting, a: Action): Lifecycle.Op
    requires a.Register? || a.Resend? || a.Confirm?
  {
    match a
    case Register(userId, email, now, draws, fault) =>
      Lifecycle.Register(
        CreateUserInput(userId, email, now, VerificationOf(s.hash, s.aead, draws, now, s.lifetime),
                        EventFor(draws, email, now)), fault)
    case Resend(email, now, draws, fault) =>
      Lifecycle.Again(
        ResendInput(email, now, VerificationOf(s.hash, s.aead, draws, now, s.lifetime),
                    EventFor(draws, email, now)), fault)
    case Confirm(hash, at, fault) => Lifecycle.Confirming(hash, at, fault)
  }

  /** A row and its event, if the transaction had an effect. */
  function Issue(s: Setting, w: World, a: Action): World
    requires a.Register? || a.Resend?
  {
    var after := Lifecycle.Apply(w.db, OpOf(s, a));
    var event := EventFor(a.draws, a.email, a.now);
    if after == w.db then w
    else
      w.(db := after,
         ow := Workers.Next(w.ow, s.workTimeout, Workers.Insert(event.id, NewEvent(event))),
         letters := w.letters[event.id := Letter(a.draws.id, a.email)])
  }

  function Moved(s: Setting, w: World, b: Workers.Action): World {
    var ow := Workers.Next(w.ow, s.workTimeout, b);
    w.(ow := ow, db := w.db.(outbox := ow.rows))
  }

  /** The world after one action; an action that is not possible changes nothing. */
  function Next(s: Setting, w: World, a: Action): World {
    if !Enabled(s, w, a) then w
    else
      match a
      case Register(_, _, _, _, _) => Issue(s, w, a)
      case Resend(_, _, _, _) => Issue(s, w, a)
      case Confirm(_, _, _) => w.(db := Lifecycle.Apply(w.db, OpOf(s, a)))
      case Work(b) => Moved(s, w, b)
      case Read(n, readFails) =>
        var reading := ReadStep(w.db.verifications, w.ow.workers[n].event, readFails);
        if reading.Stop? then Moved(s, w, Workers.Handle(n, reading.result))
        else w.(inHand := w.inHand[n := InHand(w.ow.workers[n].lockId, reading)])
      case Send(n, fate) =>
        var (result, message) := SendStep(s.aead, s.baseURL, w.inHand[n].reading, w.ow.clock, fate);
        Moved(s, w.(sent := w.sent + if message.Some? then {message.value} else {}), Workers.Handle(n, result))
  }

  function Run(s: Setting, actions: seq<Action>): World {
    if actions == [] then START
    else Next(s, Run(s, actions[..|actions| - 1]), actions[|actions| - 1])
  }

  // ---------------------------------------------------------------------------------------
  // The invariants
  // ---------------------------------------------------------------------------------------

  /** `raw` is the token of the row; `ConfirmEmail` takes no empty one. */
  predicate TokenOf(s: Setting, v: VerificationRow, raw: string) {
    raw != "" && ByteText(raw) && s.hash(raw) == v.tokenHash
  }

  /** The row was made by the service: it lasts one lifetime, its token exists and, while it is kept,
      opens under the row's id. */
  ghost predicate Crafted(s: Setting, id: Uuid, v: VerificationRow) {
    && v.expiresAt == v.createdAt + s.lifetime
    && exists raw :: && TokenOf(s, v, raw)
                     && (v.ciphertext.Some? ==>
                           && v.ciphertext.value != []
                           && Decrypted(s.aead, v.ciphertext.value, id) == Plain(TextBytes(raw)))
  }

  ghost predicate LetterInv(w: World, e: Uuid)
    requires e in w.letters
  {
    var l := w.letters[e];
    && e in w.ow.rows
    && l.verification in w.db.verifications && l.verification != NIL_UUID && l.recipient != ""
    && w.db.verifications[l.verification].userId in w.db.users
    && w.db.users[w.db.verifications[l.verification].userId].email == l.recipient
    && w.ow.rows[e].eventType == EMAIL_VERIFICATION_REQUESTED_TYPE
    && (w.ow.rows[e].processedAt.None? ==> w.ow.rows[e].payload == Object(l.verification, l.recipient))
  }

  ghost predicate HasLetter(w: World, v: Uuid) {
    exists e :: e in w.letters && w.letters[e].verification == v
  }

  ghost predicate OneLetter(w: World, d: Uuid, e: Uuid) {
    d in w.letters && e in w.letters && w.letters[d].verification == w.letters[e].verification ==> d == e
  }

  /** A message with the row's link went to its owner. */
  ghost predicate Mailed(s: Setting, w: World, l: Letter) {
    exists raw :: && l.verification in w.db.verifications && TokenOf(s, w.db.verifications[l.verification], raw)
                  && Message(l.recipient, Link(s.baseURL, raw)) in w.sent
  }

  /** Nothing more is owed for the letter. */
  ghost predicate Justified(s: Setting, w: World, l: Letter) {
    || Mailed(s, w, l)
    || (l.verification in w.db.verifications && !Live(w.db.verifications[l.verification], w.ow.clock))
  }

  /** The message carries the link of a row of its recipient. */
  ghost predicate Genuine(s: Setting, w: World, m: Message) {
    exists v, raw :: && v in w.db.verifications && TokenOf(s, w.db.verifications[v], raw)
                     && w.db.verifications[v].userId in w.db.users
                     && m == Message(w.db.users[w.db.verifications[v].userId].email, Link(s.baseURL, raw))
  }

  ghost predicate WorkerInv(s: Setting, w: World, n: nat)
    requires n in w.ow.workers
  {
    var worker := w.ow.workers[n];
    worker.Busy() ==>
      && worker.event.id in w.letters
      && worker.event.eventType == EMAIL_VERIFICATION_REQUESTED_TYPE
      && worker.event.payload == Object(w.letters[worker.event.id].verification, w.letters[worker.event.id].recipient)
      && (worker.Marking? ==>
            && !worker.result.NonRetryable?
            && (worker.result.Succeeded? ==> Justified(s, w, w.letters[worker.event.id])))
  }

  /** What a worker has in hand opens to the token of its letter's row. */
  ghost predicate Holds(s: Setting, w: World, reading: Reading, l: Letter) {
    && reading.Loaded? && reading.recipient == l.recipient && reading.id == l.verification
    && l.verification in w.db.verifications
    && reading.expiresAt == w.db.verifications[l.verification].expiresAt
    && exists raw :: && TokenOf(s, w.db.verifications[l.verification], raw)
                     && Decrypted(s.aead, reading.ciphertext, reading.id) == Plain(TextBytes(raw))
  }

  ghost predicate HandInv(s: Setting, w: World, n: nat)
    requires n in w.inHand
  {
    && w.inHand[n].lockId in w.ow.usedLocks
    && (n in w.ow.workers && (w.ow.workers[n].Asking? || w.ow.workers[n].Holding?) ==>
          w.ow.workers[n].lockId != w.inHand[n].lockId)
    && (n in w.ow.workers && w.ow.workers[n].Handling? && w.ow.workers[n].lockId == w.inHand[n].lockId ==>
          && w.ow.workers[n].event.id in w.letters
          && Holds(s, w, w.inHand[n].reading, w.letters[w.ow.workers[n].event.id]))
  }

  ghost predicate RowInv(s: Setting, w: World, e: Uuid)
    requires e in w.ow.rows
  {
    && e in w.letters
    && (w.ow.rows[e].processedAt.Some? ==> Justified(s, w, w.letters[e]))
    && (w.ow.rows[e].failedAt.Some? ==> w.ow.rows[e].attempts >= Workers.MAX_ATTEMPTS)
  }

  ghost predicate Sourced(s: Setting, w: World, v: Uuid)
    requires v in w.db.verifications
  {
    Crafted(s, v, w.db.verifications[v]) && HasLetter(w, v)
  }

  /** Rows, events, workers and mail belong together. */
  ghost predicate Linked(s: Setting, w: World) {
    && w.db.outbox == w.ow.rows
    && (forall v {:trigger Sourced(s, w, v)} :: v in w.db.verifications ==> Sourced(s, w, v))
    && (forall e {:trigger LetterInv(w, e)} :: e in w.letters ==> LetterInv(w, e))
    && (forall d, e {:trigger OneLetter(w, d, e)} :: OneLetter(w, d, e))
    && (forall n {:trigger WorkerInv(s, w, n)} :: n in w.ow.workers ==> WorkerInv(s, w, n))
    && (forall n {:trigger HandInv(s, w, n)} :: n in w.inHand ==> HandInv(s, w, n))
    && (forall e {:trigger RowInv(s, w, e)} :: e in w.ow.rows ==> RowInv(s, w, e))
    && (forall m {:trigger Genuine(s, w, m)} :: m in w.sent ==> Genuine(s, w, m))
  }

  ghost predicate Inv(s: Setting, w: World) {
    Workers.Inv(w.ow) && Lifecycle.Inv(w.db) && Linked(s, w)
  }

  // ---------------------------------------------------------------------------------------
  // What never goes back
  // ---------------------------------------------------------------------------------------

  /** A row keeps its owner, token and expiry, loses its ciphertext at most, and is never unsettled
      again. */
  predicate RowGrows(v: VerificationRow, late: VerificationRow) {
    && late.userId == v.userId && late.tokenHash == v.tokenHash
    && late.createdAt == v.createdAt && late.expiresAt == v.expiresAt
    && (late.ciphertext.Some? ==> late.ciphertext == v.ciphertext)
    && (Unsettled(late) ==> Unsettled(v))
  }

  ghost predicate DbGrows(db: Tables, late: Tables) {
    && (forall v :: v in db.verifications ==>
          v in late.verifications && RowGrows(db.verifications[v], late.verifications[v]))
    && (forall u :: u in db.users ==> u in late.users && late.users[u].email == db.users[u].email)
  }

  /** An event keeps its type, and its payload until it is processed, which is for good. */
  predicate EventKept(row: Row, late: Row) {
    && late.eventType == row.eventType
    && (late.processedAt.None? ==> row.processedAt.None? && late.payload == row.payload)
  }

  ghost predicate Grows(w: World, late: World) {
    && DbGrows(w.db, late.db)
    && (forall e :: e in w.ow.rows ==> e in late.ow.rows && EventKept(w.ow.rows[e], late.ow.rows[e]))
    && w.ow.clock <= late.ow.clock && w.ow.usedLocks <= late.ow.usedLocks && w.sent <= late.sent
    && (forall e :: e in w.letters ==> e in late.letters && late.letters[e] == w.letters[e])
  }

  lemma JustifiedForGood(s: Setting, w: World, late: World, l: Letter)
    requires Grows(w, late) && Justified(s, w, l)
    ensures Justified(s, late, l)
  {
    if Mailed(s, w, l) {
      var raw :| && TokenOf(s, w.db.verifications[l.verification], raw)
                 && Message(l.recipient, Link(s.baseURL, raw)) in w.sent;
      assert TokenOf(s, late.db.verifications[l.verification], raw);
    }
  }

  lemma GenuineForGood(s: Setting, w: World, late: World, m: Message)
    requires Grows(w, late) && Genuine(s, w, m)
    ensures Genuine(s, late, m)
  {
    var v, raw :| && v in w.db.verifications && TokenOf(s, w.db.verifications[v], raw)
                  && w.db.verifications[v].userId in w.db.users
                  && m == Message(w.db.users[w.db.verifications[v].userId].email, Link(s.baseURL, raw));
    assert TokenOf(s, late.db.verifications[v], raw);
  }

  lemma HoldsForGood(s: Setting, w: World, late: World, reading: Reading, l: Letter)
    requires Grows(w, late) && Holds(s, w, reading, l)
    ensures Holds(s, late, reading, l)
  {
    var raw :| && TokenOf(s, w.db.verifications[l.verification], raw)
               && Decrypted(s.aead, reading.ciphertext, reading.id) == Plain(TextBytes(raw));
    assert TokenOf(s, late.db.verifications[l.verification], raw);
  }

  lemma CraftedForGood(s: Setting, id: Uuid, v: VerificationRow, late: VerificationRow)
    requires RowGrows(v, late) && Crafted(s, id, v)
    ensures Crafted(s, id, late)
  {
    var raw :| && TokenOf(s, v, raw)
               && (v.ciphertext.Some? ==>
                     && v.ciphertext.value != []
                     && Decrypted(s.aead, v.ciphertext.value, id) == Plain(TextBytes(raw)));
    assert TokenOf(s, late, raw);
  }

  // ---------------------------------------------------------------------------------------
  // Only what an action changes has to be looked at
  // ---------------------------------------------------------------------------------------

  ghost predicate WorkerSettled(s: Setting, w: World, late: World, n: nat)
    requires n in late.ow.workers
  {
    (n in w.ow.workers && late.ow.workers[n] == w.ow.workers[n]) || WorkerInv(s, late, n)
  }

  ghost predicate HandSettled(s: Setting, w: World, late: World, n: nat)
    requires n in late.inHand
  {
    || (&& n in w.inHand && late.inHand[n] == w.inHand[n]
        && (n in late.ow.workers ==> n in w.ow.workers && late.ow.workers[n] == w.ow.workers[n]))
    || HandInv(s, late, n)
  }

  ghost predicate RowSettled(s: Setting, w: World, late: World, e: Uuid)
    requires e in late.ow.rows
  {
    (e in w.ow.rows && late.ow.rows[e] == w.ow.rows[e]) || RowInv(s, late, e)
  }

  lemma WorkerForGood(s: Setting, w: World, late: World, n: nat)
    requires Grows(w, late) && n in late.ow.workers && WorkerSettled(s, w, late, n)
    requires n in w.ow.workers ==> WorkerInv(s, w, n)
    ensures WorkerInv(s, late, n)
  {
    if n in w.ow.workers && late.ow.workers[n] == w.ow.workers[n] {
      var worker := w.ow.workers[n];
      if worker.Marking? && worker.result.Succeeded? {
        JustifiedForGood(s, w, late, w.letters[worker.event.id]);
      }
    }
  }

  lemma HandForGood(s: Setting, w: World, late: World, n: nat)
    requires Grows(w, late) && n in late.inHand && HandSettled(s, w, late, n)
    requires n in w.inHand ==> HandInv(s, w, n)
    ensures HandInv(s, late, n)
  {
    if !HandInv(s, late, n) && n in late.ow.workers && late.ow.workers[n].Handling?
       && late.ow.workers[n].lockId == w.inHand[n].lockId {
      HoldsForGood(s, w, late, w.inHand[n].reading, w.letters[w.ow.workers[n].event.id]);
    }
  }

  lemma RowForGood(s: Setting, w: World, late: World, e: Uuid)
    requires Grows(w, late) && e in late.ow.rows && RowSettled(s, w, late, e)
    requires e in w.ow.rows ==> RowInv(s, w, e)
    ensures RowInv(s, late, e)
  {
    if e in w.ow.rows && late.ow.rows[e] == w.ow.rows[e] && w.ow.rows[e].processedAt.Some? {
      JustifiedForGood(s, w, late, w.letters[e]);
    }
  }

  lemma LetterForGood(s: Setting, w: World, late: World, e: Uuid)
    requires Grows(w, late) && e in w.letters && LetterInv(w, e)
    ensures LetterInv(late, e)
  {
  }

  lemma HasLetterForGood(w: World, late: World, v: Uuid)
    requires Grows(w, late) && HasLetter(w, v)
    ensures HasLetter(late, v)
  {
    var e :| e in w.letters && w.letters[e].verification == v;
    assert late.letters[e].verification == v;
  }

  /** At most worker `n` with what it has in hand, and event `e`, are not as they were. */
  ghost predicate OnlyMoved(w: World, late: World, n: nat, e: Uuid) {
    && (forall m :: m in late.ow.workers && m != n ==> m in w.ow.workers && late.ow.workers[m] == w.ow.workers[m])
    && (forall m :: m in late.inHand && m != n ==> m in w.inHand && late.inHand[m] == w.inHand[m])
    && (forall j :: j in late.ow.rows && j != e ==> j in w.ow.rows && late.ow.rows[j] == w.ow.rows[j])
  }

  /** Rows of `w` keep what they have; rows and letters that are new must come with it. */
  lemma GrowingKeepsLinks(s: Setting, w: World, late: World, n: nat, e: Uuid)
    requires Linked(s, w) && Grows(w, late) && late.db.outbox == late.ow.rows && OnlyMoved(w, late, n, e)
    requires forall v :: v in late.db.verifications && v !in w.db.verifications ==> Sourced(s, late, v)
    requires forall j :: j in late.letters && j !in w.letters ==> LetterInv(late, j)
    requires forall i, j {:trigger OneLetter(late, i, j)} :: OneLetter(w, i, j) ==> OneLetter(late, i, j)
    requires n in late.ow.workers ==> WorkerSettled(s, w, late, n)
    requires n in late.inHand ==> HandSettled(s, w, late, n)
    requires e in late.ow.rows ==> RowSettled(s, w, late, e)
    requires forall m :: m in late.sent && m !in w.sent ==> Genuine(s, late, m)
    ensures Linked(s, late)
  {
    forall v | v in late.db.verifications ensures Sourced(s, late, v) {
      if v in w.db.verifications {
        assert Sourced(s, w, v);
        CraftedForGood(s, v, w.db.verifications[v], late.db.verifications[v]);
        HasLetterForGood(w, late, v);
      }
    }
    forall j | j in late.letters ensures LetterInv(late, j) {
      if j in w.letters {
        assert LetterInv(w, j);
        LetterForGood(s, w, late, j);
      }
    }
    forall i, j ensures OneLetter(late, i, j) {
      assert OneLetter(w, i, j);
    }
    forall m | m in late.ow.workers ensures WorkerInv(s, late, m) {
      assert m in w.ow.workers ==> WorkerInv(s, w, m);
      WorkerForGood(s, w, late, m);
    }
    forall m | m in late.inHand ensures HandInv(s, late, m) {
      assert m in w.inHand ==> HandInv(s, w, m);
      HandForGood(s, w, late, m);
    }
    forall j | j in late.ow.rows ensures RowInv(s, late, j) {
      assert j in w.ow.rows ==> RowInv(s, w, j);
      RowForGood(s, w, late, j);
    }
    forall m | m in late.sent ensures Genuine(s, late, m) {
      if m in w.sent {
        assert Genuine(s, w, m);
        GenuineForGood(s, w, late, m);
      }
    }
  }

  // ---------------------------------------------------------------------------------------
  // The database operations
  // ---------------------------------------------------------------------------------------

  lemma CreateGrows(db: Tables, input: CreateUserInput)
    ensures DbGrows(db, CreateUser(db, input).0)
  {
  }

  lemma ResendGrows(db: Tables, input: ResendInput)
    ensures DbGrows(db, Verifications.Resend(db, input).0)
  {
    if Verifications.Resend(db, input).1.Resent? {
      Lifecycle.RevokedKeepsShape(db.verifications, db.emails[Lower(input.email)], input.requestedAt);
    }
  }

  lemma ConfirmGrows(db: Tables, hash: Hash, at: Time)
    ensures DbGrows(db, Verifications.Confirm(db, hash, at).0)
  {
  }

  lemma OpGrows(db: Tables, op: Lifecycle.Op)
    ensures DbGrows(db, Lifecycle.Apply(db, op))
  {
    Lifecycle.AllOrNothing(db, op);
    match op
    case Register(user, _) => CreateGrows(db, user);
    case Again(resend, _) => ResendGrows(db, resend);
    case Confirming(hash, at, _) => ConfirmGrows(db, hash, at);
    case OutboxMoves(_) =>
  }

  lemma ConfirmKeepsLinks(s: Setting, w: World, op: Lifecycle.Op)
    requires Linked(s, w) && op.Confirming?
    ensures Linked(s, w.(db := Lifecycle.Apply(w.db, op)))
  {
    OpGrows(w.db, op);
    Lifecycle.AllOrNothing(w.db, op);
    GrowingKeepsLinks(s, w, w.(db := Lifecycle.Apply(w.db, op)), 0, NIL_UUID);
  }

  // ---------------------------------------------------------------------------------------
  // A new row and its event
  // ---------------------------------------------------------------------------------------

  /** `late` has in addition the row that the service made of the draws, for the user of the
      address, and its event. */
  ghost predicate Issued(s: Setting, w: World, late: Tables, draws: Draws, email: string, now: Time) {
    var id, event := draws.id, EventFor(draws, email, now);
    && id !in w.db.verifications && id in late.verifications
    && late.verifications.Keys == w.db.verifications.Keys + {id}
    && late.verifications[id].tokenHash == s.hash(RawToken(draws))
    && late.verifications[id].createdAt == now && late.verifications[id].expiresAt == now + s.lifetime
    && Unsettled(late.verifications[id])
    && late.verifications[id].ciphertext == Some(VerificationOf(s.hash, s.aead, draws, now, s.lifetime).ciphertext)
    && late.verifications[id].userId in late.users
    && late.users[late.verifications[id].userId].email == email
    && event.id !in w.ow.rows && late.outbox == w.db.outbox[event.id := NewEvent(event)]
  }

  lemma CreateIssues(s: Setting, w: World, a: Action)
    requires w.db.outbox == w.ow.rows && a.Register? && Lifecycle.Apply(w.db, OpOf(s, a)) != w.db
    ensures Issued(s, w, Lifecycle.Apply(w.db, OpOf(s, a)), a.draws, a.email, a.now)
  {
    Lifecycle.AllOrNothing(w.db, OpOf(s, a));
  }

  lemma ResendIssues(s: Setting, w: World, a: Action)
    requires Lifecycle.Inv(w.db) && w.db.outbox == w.ow.rows && a.Resend? && Lifecycle.Apply(w.db, OpOf(s, a)) != w.db
    ensures Issued(s, w, Lifecycle.Apply(w.db, OpOf(s, a)), a.draws, a.email, a.now)
  {
    Lifecycle.AllOrNothing(w.db, OpOf(s, a));
    Lifecycle.ResendAddsNewest(w.db, OpOf(s, a).resend);
  }

  function WithLetter(s: Setting, w: World, db: Tables, draws: Draws, email: string, now: Time): World {
    w.(db := db,
       ow := Workers.Next(w.ow, s.workTimeout, Workers.Insert(draws.eventId, NewEvent(EventFor(draws, email, now)))),
       letters := w.letters[draws.eventId := Letter(draws.id, email)])
  }

  /** The new letter is the only one for its row. */
  lemma IssueAddsLetter(s: Setting, w: World, db: Tables, draws: Draws, email: string, now: Time)
    requires Linked(s, w) && Issued(s, w, db, draws, email, now)
    ensures draws.eventId !in w.letters
    ensures forall d, e {:trigger OneLetter(WithLetter(s, w, db, draws, email, now), d, e)} ::
              OneLetter(WithLetter(s, w, db, draws, email, now), d, e)
  {
    var late := WithLetter(s, w, db, draws, email, now);
    forall d, e ensures OneLetter(late, d, e) {
      assert OneLetter(w, d, e);
      assert d in w.letters ==> LetterInv(w, d);
      assert e in w.letters ==> LetterInv(w, e);
    }
    assert draws.eventId in w.letters ==> LetterInv(w, draws.eventId);
  }

  lemma IssueIsSourced(s: Setting, w: World, db: Tables, draws: Draws, email: string, now: Time)
    requires Sound(s.aead) && Usable(s, draws, email) && Issued(s, w, db, draws, email, now) && w.db.outbox == w.ow.rows
    ensures var late := WithLetter(s, w, db, draws, email, now);
            && Sourced(s, late, draws.id) && LetterInv(late, draws.eventId) && RowInv(s, late, draws.eventId)
  {
    var late := WithLetter(s, w, db, draws, email, now);
    TokenText(draws.random);
    TokenOpensForItsRow(s.hash, s.aead, draws, now, s.lifetime, draws.id);
    assert TokenOf(s, db.verifications[draws.id], RawToken(draws));
    assert late.letters[draws.eventId].verification == draws.id;
  }

  lemma IssueKeepsLinks(s: Setting, w: World, db: Tables, draws: Draws, email: string, now: Time)
    requires Sound(s.aead) && Linked(s, w) && Usable(s, draws, email)
    requires Issued(s, w, db, draws, email, now) && DbGrows(w.db, db)
    ensures Linked(s, WithLetter(s, w, db, draws, email, now))
  {
    var late := WithLetter(s, w, db, draws, email, now);
    IssueIsSourced(s, w, db, draws, email, now);
    IssueAddsLetter(s, w, db, draws, email, now);
    GrowingKeepsLinks(s, w, late, 0, draws.eventId);
  }

  lemma IssueKeepsInv(s: Setting, w: World, a: Action)
    requires Sound(s.aead) && Inv(s, w) && (a.Register? || a.Resend?) && Usable(s, a.draws, a.email)
    ensures Inv(s, Issue(s, w, a))
  {
    var op := OpOf(s, a);
    var db := Lifecycle.Apply(w.db, op);
    if db != w.db {
      if a.Register? {
        CreateIssues(s, w, a);
      } else {
        ResendIssues(s, w, a);
      }
      OpGrows(w.db, op);
      Lifecycle.ApplyKeepsInv(w.db, op);
      var row := NewEvent(EventFor(a.draws, a.email, a.now));
      Workers.NextKeepsInv(w.ow, s.workTimeout, Workers.Insert(a.draws.eventId, row));
      IssueKeepsLinks(s, w, db, a.draws, a.email, a.now);
    }
  }

  // ---------------------------------------------------------------------------------------
  // The workers
  // ---------------------------------------------------------------------------------------

  lemma WorkGrows(s: Setting, w: World, b: Workers.Action)
    requires !b.Insert?
    ensures Grows(w, Moved(s, w, b))
  {
  }

  /** A step of the workers that leaves the rest alone. */
  lemma MovingKeepsLinks(s: Setting, w: World, b: Workers.Action, n: nat, e: Uuid)
    requires Linked(s, w) && !b.Insert? && OnlyMoved(w, Moved(s, w, b), n, e)
    requires n in Moved(s, w, b).ow.workers ==> WorkerSettled(s, w, Moved(s, w, b), n)
    requires n in w.inHand ==> HandSettled(s, w, Moved(s, w, b), n)
    requires e in Moved(s, w, b).ow.rows ==> RowSettled(s, w, Moved(s, w, b), e)
    ensures Linked(s, Moved(s, w, b))
  {
    var late := Moved(s, w, b);
    WorkGrows(s, w, b);
    GrowingKeepsLinks(s, w, late, n, e);
  }

  lemma ClaimKeepsLinks(s: Setting, w: World, n: nat, id: Uuid, skipped: set<Uuid>)
    requires Linked(s, w) && Workers.Enabled(w.ow, Workers.Claim(n, id, skipped))
    ensures Linked(s, Moved(s, w, Workers.Claim(n, id, skipped)))
  {
    assert RowInv(s, w, id) && LetterInv(w, id);
    assert n in w.inHand ==> HandInv(s, w, n);
    MovingKeepsLinks(s, w, Workers.Claim(n, id, skipped), n, id);
  }

  lemma AskKeepsLinks(s: Setting, w: World, n: nat, lockId: Uuid)
    requires Linked(s, w) && Workers.Enabled(w.ow, Workers.Ask(n, lockId))
    ensures Linked(s, Moved(s, w, Workers.Ask(n, lockId)))
  {
    assert n in w.inHand ==> HandInv(s, w, n);
    MovingKeepsLinks(s, w, Workers.Ask(n, lockId), n, NIL_UUID);
  }

  /** The result of a handler may be marked: it never gave up, and its success is justified. */
  lemma HandleKeepsLinks(s: Setting, w: World, n: nat, result: Workers.Result)
    requires Linked(s, w) && Workers.WorkerAt(w.ow, n).Handling? && !result.NonRetryable?
    requires w.ow.workers[n].event.id in w.letters
    requires result.Succeeded? ==> Justified(s, w, w.letters[w.ow.workers[n].event.id])
    ensures Linked(s, Moved(s, w, Workers.Handle(n, result)))
  {
    var b := Workers.Handle(n, result);
    assert WorkerInv(s, w, n);
    assert n in w.inHand ==> HandInv(s, w, n);
    WorkGrows(s, w, b);
    if result.Succeeded? {
      JustifiedForGood(s, w, Moved(s, w, b), w.letters[w.ow.workers[n].event.id]);
    }
    MovingKeepsLinks(s, w, b, n, NIL_UUID);
  }

  /** The row that a mark changes. */
  lemma MarkSettlesRow(s: Setting, w: World, n: nat, at: Time, draw: Backoff.Draw)
    requires Workers.Inv(w.ow) && Workers.WorkerAt(w.ow, n).Marking? && w.ow.workers[n].event.id in w.ow.rows
    requires WorkerInv(s, w, n) && RowInv(s, w, w.ow.workers[n].event.id)
    ensures RowSettled(s, w, Moved(s, w, Workers.MarkEvent(n, at, draw, true)), w.ow.workers[n].event.id)
  {
    var b, worker := Workers.MarkEvent(n, at, draw, true), w.ow.workers[n];
    var mark := Workers.MarkFor(worker.result, worker.event.attempts, at, draw);
    WorkGrows(s, w, b);
    if Workers.HitsRow(w.ow, n, mark) {
      Workers.HitMeansOwned(w.ow, n, mark);
      if worker.result.Succeeded? {
        JustifiedForGood(s, w, Moved(s, w, b), w.letters[worker.event.id]);
      }
    }
  }

  lemma MarkKeepsLinks(s: Setting, w: World, n: nat, at: Time, draw: Backoff.Draw)
    requires Linked(s, w) && Workers.WorkerAt(w.ow, n).Marking?
    requires var e := w.ow.workers[n].event.id;
             e in w.ow.rows ==> RowSettled(s, w, Moved(s, w, Workers.MarkEvent(n, at, draw, true)), e)
    ensures Linked(s, Moved(s, w, Workers.MarkEvent(n, at, draw, true)))
  {
    var b := Workers.MarkEvent(n, at, draw, true);
    assert WorkerInv(s, w, n);
    assert n in w.inHand ==> HandInv(s, w, n);
    MovingKeepsLinks(s, w, b, n, w.ow.workers[n].event.id);
  }

  lemma StartKeepsLinks(s: Setting, w: World, n: nat)
    requires Linked(s, w) && Workers.Enabled(w.ow, Workers.Start(n))
    ensures Linked(s, Moved(s, w, Workers.Start(n)))
  {
    assert WorkerInv(s, w, n);
    assert n in w.inHand ==> HandInv(s, w, n);
    MovingKeepsLinks(s, w, Workers.Start(n), n, NIL_UUID);
  }

  lemma WorkKeepsLinks(s: Setting, w: World, b: Workers.Action)
    requires Workers.Inv(w.ow) && Linked(s, w) && !b.Insert? && !b.Handle?
    ensures Linked(s, Moved(s, w, b))
  {
    if !Workers.Enabled(w.ow, b) {
      assert Moved(s, w, b) == w;
    } else {
      match b
      case Claim(n, id, skipped) => ClaimKeepsLinks(s, w, n, id, skipped);
      case Ask(n, lockId) => AskKeepsLinks(s, w, n, lockId);
      case Start(n) => StartKeepsLinks(s, w, n);
      case MarkEvent(n, at, draw, effective) =>
        if effective {
          assert WorkerInv(s, w, n);
          if w.ow.workers[n].event.id in w.ow.rows {
            assert RowInv(s, w, w.ow.workers[n].event.id);
            MarkSettlesRow(s, w, n, at, draw);
          }
          MarkKeepsLinks(s, w, n, at, draw);
        } else {
          IdleKeepsLinks(s, w, n, b);
        }
      case Leave(n) => IdleKeepsLinks(s, w, n, b);
      case Tick(_) => MovingKeepsLinks(s, w, b, 0, NIL_UUID);
    }
  }

  lemma IdleKeepsLinks(s: Setting, w: World, n: nat, b: Workers.Action)
    requires Linked(s, w) && Workers.Enabled(w.ow, b)
    requires b == Workers.Leave(n) || (b.MarkEvent? && b.worker == n && !b.effective)
    ensures Linked(s, Moved(s, w, b))
  {
    assert n in w.inHand ==> HandInv(s, w, n);
    MovingKeepsLinks(s, w, b, n, NIL_UUID);
  }

  // ---------------------------------------------------------------------------------------
  // The handler
  // ---------------------------------------------------------------------------------------

  /** Reading finds the row: it hands over what is needed, or nothing more is owed, or it is
      worth another try. */
  lemma ReadingIsSound(s: Setting, w: World, n: nat, readFails: bool)
    requires n in w.ow.workers && w.ow.workers[n].Handling? && WorkerInv(s, w, n)
    requires w.ow.workers[n].event.id in w.letters && LetterInv(w, w.ow.workers[n].event.id)
    requires var id := w.letters[w.ow.workers[n].event.id].verification;
             Lifecycle.Consistent(w.db.verifications[id], w.db.users) && Crafted(s, id, w.db.verifications[id])
    ensures var l := w.letters[w.ow.workers[n].event.id];
            match ReadStep(w.db.verifications, w.ow.workers[n].event, readFails)
            case Stop(result) => !result.NonRetryable? && (result.Succeeded? ==> Justified(s, w, l))
            case reading => Holds(s, w, reading, l)
  {
    var id := w.letters[w.ow.workers[n].event.id].verification;
    var v := w.db.verifications[id];
    var raw :| && TokenOf(s, v, raw)
               && (v.ciphertext.Some? ==>
                     && v.ciphertext.value != []
                     && Decrypted(s.aead, v.ciphertext.value, id) == Plain(TextBytes(raw)));
  }

  lemma LoadKeepsLinks(s: Setting, w: World, n: nat, reading: Reading)
    requires Linked(s, w) && Workers.WorkerAt(w.ow, n).Handling? && Workers.WorkerInv(w.ow, n)
    requires w.ow.workers[n].event.id in w.letters && Holds(s, w, reading, w.letters[w.ow.workers[n].event.id])
    ensures Linked(s, w.(inHand := w.inHand[n := InHand(w.ow.workers[n].lockId, reading)]))
  {
    var late := w.(inHand := w.inHand[n := InHand(w.ow.workers[n].lockId, reading)]);
    HoldsForGood(s, w, late, reading, w.letters[w.ow.workers[n].event.id]);
    GrowingKeepsLinks(s, w, late, n, NIL_UUID);
  }

  lemma ReadKeepsLinks(s: Setting, w: World, n: nat, readFails: bool)
    requires Linked(s, w) && Workers.WorkerAt(w.ow, n).Handling? && Workers.WorkerInv(w.ow, n)
    requires forall v :: v in w.db.verifications ==> Lifecycle.Consistent(w.db.verifications[v], w.db.users)
    ensures Linked(s, Next(s, w, Read(n, readFails)))
  {
    var reading := ReadStep(w.db.verifications, w.ow.workers[n].event, readFails);
    assert WorkerInv(s, w, n);
    assert LetterInv(w, w.ow.workers[n].event.id);
    assert Sourced(s, w, w.letters[w.ow.workers[n].event.id].verification);
    ReadingIsSound(s, w, n, readFails);
    if reading.Stop? {
      HandleKeepsLinks(s, w, n, reading.result);
    } else {
      LoadKeepsLinks(s, w, n, reading);
    }
  }

  /** Sending mails the row's own token, or nothing more is owed, or it is worth another try. */
  lemma SendingIsSound(s: Setting, w: World, n: nat, fate: Fate)
    requires Enabled(s, w, Send(n, fate)) && HandInv(s, w, n)
    requires w.ow.workers[n].event.id in w.letters && LetterInv(w, w.ow.workers[n].event.id)
    ensures var l := w.letters[w.ow.workers[n].event.id];
            var (result, message) := SendStep(s.aead, s.baseURL, w.inHand[n].reading, w.ow.clock, fate);
            var late := w.(sent := w.sent + if message.Some? then {message.value} else {});
            && !result.NonRetryable?
            && (result.Succeeded? ==> Justified(s, late, l))
            && (message.Some? ==> Genuine(s, w, message.value))
  {
    var reading, l := w.inHand[n].reading, w.letters[w.ow.workers[n].event.id];
    var v := w.db.verifications[l.verification];
    var raw :| TokenOf(s, v, raw) && Decrypted(s.aead, reading.ciphertext, reading.id) == Plain(TextBytes(raw));
    TextRoundTrip(raw);
    assert Genuine(s, w, Message(l.recipient, Link(s.baseURL, raw)));
  }

  lemma MailKeepsLinks(s: Setting, w: World, messages: set<Message>)
    requires Linked(s, w) && forall m :: m in messages ==> Genuine(s, w, m)
    ensures Linked(s, w.(sent := w.sent + messages))
  {
    var late := w.(sent := w.sent + messages);
    forall m | m in late.sent && m !in w.sent ensures Genuine(s, late, m) {
      GenuineForGood(s, w, late, m);
    }
    GrowingKeepsLinks(s, w, late, 0, NIL_UUID);
  }

  lemma SendKeepsLinks(s: Setting, w: World, n: nat, fate: Fate)
    requires Linked(s, w) && Enabled(s, w, Send(n, fate))
    ensures Linked(s, Next(s, w, Send(n, fate)))
  {
    assert HandInv(s, w, n) && LetterInv(w, w.ow.workers[n].event.id);
    SendingIsSound(s, w, n, fate);
    var (result, message) := SendStep(s.aead, s.baseURL, w.inHand[n].reading, w.ow.clock, fate);
    var messages := if message.Some? then {message.value} else {};
    MailKeepsLinks(s, w, messages);
    HandleKeepsLinks(s, w.(sent := w.sent + messages), n, result);
  }

  // ---------------------------------------------------------------------------------------
  // Every action
  // ---------------------------------------------------------------------------------------

  lemma MovedKeepsInv(s: Setting, w: World, b: Workers.Action)
    requires Workers.Inv(w.ow) && Lifecycle.Inv(w.db) && Linked(s, Moved(s, w, b))
    ensures Inv(s, Moved(s, w, b))
  {
    Workers.NextKeepsInv(w.ow, s.workTimeout, b);
    Lifecycle.OutboxIsApart(w.db, Workers.Next(w.ow, s.workTimeout, b).rows);
  }

  lemma NextKeepsInv(s: Setting, w: World, a: Action)
    requires Sound(s.aead) && Inv(s, w)
    ensures Inv(s, Next(s, w, a))
  {
    if Enabled(s, w, a) {
      match a
      case Register(_, _, _, _, _) => IssueKeepsInv(s, w, a);
      case Resend(_, _, _, _) => IssueKeepsInv(s, w, a);
      case Confirm(hash, at, fault) =>
        ConfirmKeepsLinks(s, w, OpOf(s, a));
        Lifecycle.ApplyKeepsInv(w.db, OpOf(s, a));
      case Work(b) =>
        WorkKeepsLinks(s, w, b);
        MovedKeepsInv(s, w, b);
      case Read(n, readFails) =>
        ReadKeepsLinks(s, w, n, readFails);
        var reading := ReadStep(w.db.verifications, w.ow.workers[n].event, readFails);
        if reading.Stop? {
          MovedKeepsInv(s, w, Workers.Handle(n, reading.result));
        }
      case Send(n, fate) =>
        SendKeepsLinks(s, w, n, fate);
        var (result, message) := SendStep(s.aead, s.baseURL, w.inHand[n].reading, w.ow.clock, fate);
        MovedKeepsInv(s, w.(sent := w.sent + if message.Some? then {message.value} else {}), Workers.Handle(n, result));
    }
  }

  lemma {:induction false} RunKeepsInv(s: Setting, actions: seq<Action>)
    requires Sound(s.aead)
    ensures Inv(s, Run(s, actions))
  {
    if actions != [] {
      RunKeepsInv(s, actions[..|actions| - 1]);
      NextKeepsInv(s, Run(s, actions[..|actions| - 1]), actions[|actions| - 1]);
    }
  }

  // ---------------------------------------------------------------------------------------
  // What follows
  // ---------------------------------------------------------------------------------------

  /** Every verification row has exactly one event, and every event was written for one row. */
  lemma OneEventPerVerification(s: Setting, actions: seq<Action>, v: Uuid) returns (e: Uuid)
    requires Sound(s.aead) && v in Run(s, actions).db.verifications
    ensures var w := Run(s, actions);
            && e in w.db.outbox && e in w.letters && w.letters[e].verification == v
            && (forall d :: d in w.db.outbox && d in w.letters && w.letters[d].verification == v ==> d == e)
            && w.letters.Keys == w.db.outbox.Keys
  {
    var w := Run(s, actions);
    RunKeepsInv(s, actions);
    assert Sourced(s, w, v);
    e :| e in w.letters && w.letters[e].verification == v;
    assert LetterInv(w, e);
    forall d | d in w.letters && w.letters[d].verification == v ensures d == e {
      assert OneLetter(w, d, e);
    }
    forall d ensures d in w.letters <==> d in w.db.outbox {
      assert d in w.letters ==> LetterInv(w, d);
      assert d in w.db.outbox ==> RowInv(s, w, d);
    }
  }

  /** Until it is processed, an event names its row and its owner's address, and reading the row
      for delivery never reports it missing. */
  lemma PayloadNamesTheRow(s: Setting, actions: seq<Action>, e: Uuid, fails: bool)
    requires Sound(s.aead) && e in Run(s, actions).db.outbox && Run(s, actions).db.outbox[e].processedAt.None?
    ensures var w := Run(s, actions);
            var payload := w.db.outbox[e].payload;
            && e in w.letters && payload == Object(w.letters[e].verification, w.letters[e].recipient)
            && payload.verificationId in w.db.verifications
            && w.db.verifications[payload.verificationId].userId in w.db.users
            && payload.recipient == w.db.users[w.db.verifications[payload.verificationId].userId].email
            && GetForDelivery(w.db.verifications, payload.verificationId, fails) != NotFound
  {
    var w := Run(s, actions);
    RunKeepsInv(s, actions);
    assert RowInv(s, w, e) && LetterInv(w, e);
  }

  /** End to end: whatever the number of workers, crashes and retries, an event is marked processed
      only if its verification is settled or expired, or its link was mailed to its owner. */
  lemma {:induction false} EndToEnd(s: Setting, actions: seq<Action>, e: Uuid) returns (raw: string)
    requires Sound(s.aead) && e in Run(s, actions).db.outbox && Run(s, actions).db.outbox[e].processedAt.Some?
    ensures var w := Run(s, actions);
            && e in w.letters && w.letters[e].verification in w.db.verifications
            && var v := w.db.verifications[w.letters[e].verification];
            v.userId in w.db.users
            && (Live(v, w.ow.clock) ==>
                  && raw != "" && ByteText(raw) && s.hash(raw) == v.tokenHash
                  && Message(w.db.users[v.userId].email, Link(s.baseURL, raw)) in w.sent)
  {
    var w := Run(s, actions);
    RunKeepsInv(s, actions);
    assert RowInv(s, w, e) && LetterInv(w, e);
    var l := w.letters[e];
    raw := "";
    if Mailed(s, w, l) {
      raw :| && TokenOf(s, w.db.verifications[l.verification], raw)
             && Message(l.recipient, Link(s.baseURL, raw)) in w.sent;
    }
  }

  /** An event fails only after ten attempts: the handler never gives up on its own. */
  lemma FailureNeedsTenAttempts(s: Setting, actions: seq<Action>, e: Uuid)
    requires Sound(s.aead) && e in Run(s, actions).db.outbox && Run(s, actions).db.outbox[e].failedAt.Some?
    ensures Run(s, actions).db.outbox[e].attempts >= Workers.MAX_ATTEMPTS
    ensures Run(s, actions).db.outbox[e].processedAt.None?
  {
    RunKeepsInv(s, actions);
    assert RowInv(s, Run(s, actions), e) && Workers.RowInv(Run(s, actions).ow, e);
  }

  lemma ConfirmingByHash(db: Tables, id: Uuid, at: Time)
    requires Lifecycle.Indexed(db) && id in db.verifications
    ensures var v := db.verifications[id];
            && v.tokenHash in db.hashes && db.hashes[v.tokenHash] == id && v.userId in db.users
            && var (after, reply) := Verifications.Confirm(db, v.tokenHash, at);
            && (reply.Confirmed? <==> Live(v, at) && db.users[v.userId].verifiedAt.None?)
            && after == if reply.Confirmed? then Used(db, id, at) else db
  {
  }

  /** The link of a mailed message leads back to one row of its recipient: confirming with the
      token that the link carries, at any time, uses exactly that row, and succeeds exactly while
      the row is live and its user not verified. */
  lemma {:induction false} LinkRoundTrip(s: Setting, actions: seq<Action>, m: Message, at: Time)
    returns (id: Uuid, raw: string)
    requires Sound(s.aead) && '?' !in s.baseURL && '#' !in s.baseURL && m in Run(s, actions).sent
    ensures var db := Run(s, actions).db;
            && raw != "" && QueryParameter(m.url, "token") == Some(raw)
            && s.hash(raw) in db.hashes && db.hashes[s.hash(raw)] == id
            && id in db.verifications && db.verifications[id].userId in db.users
            && db.users[db.verifications[id].userId].email == m.recipient
            && var (after, reply) := Verifications.Confirm(db, s.hash(raw), at);
            && (reply.Confirmed? <==>
                  Live(db.verifications[id], at) && db.users[db.verifications[id].userId].verifiedAt.None?)
            && after == if reply.Confirmed? then Used(db, id, at) else db
  {
    var w := Run(s, actions);
    RunKeepsInv(s, actions);
    assert Genuine(s, w, m);
    id, raw :| && id in w.db.verifications && TokenOf(s, w.db.verifications[id], raw)
               && w.db.verifications[id].userId in w.db.users
               && m == Message(w.db.users[w.db.verifications[id].userId].email, Link(s.baseURL, raw));
    LinkCarriesToken(s.baseURL, raw);
    ConfirmingByHash(w.db, id, at);
  }
}
