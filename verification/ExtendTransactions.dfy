/** Concurrent `ExtendSession` transactions, split at their row locks
    (internal/adapter/repository/postgres/session_repository.go): first the token row, then
    the session row, then the writes and the commit.  Other transactions see the writes only
    once they are committed, so writes and commit are one step here. */
module ExtendTransactions {
  import opened Core
  import opened Sessions
  import opened Sums

  datatype Phase =
    | Begun
    | TokenLocked(token: TokenRow)
    | BothLocked(token: TokenRow, session: SessionRow)
    | Done(reply: ExtendReply)

  datatype Tx = Tx(input: ExtendInput, phase: Phase)

  /** One transaction of the serial order: who ran it, which call with which fault, and what
      that caller was answered.  `CreateSession` calls carry no transaction number. */
  datatype Entry = Entry(who: Option<nat>, call: Call, reply: ExtendReply)

  datatype World = World(
    db: Tables,
    txs: map<nat, Tx>,
    tokenLocks: map<Hash, nat>,
    sessionLocks: map<Uuid, nat>,
    log: seq<Entry>)

  datatype Action =
    | Begin(tx: nat, input: ExtendInput)
    | LockToken(tx: nat)
    | LockSession(tx: nat)
    | Conclude(tx: nat, fault: Fault)
    | Abort(tx: nat)
    | Login(create: CreateInput, fault: Fault)

  function Start(db: Tables): World {
    World(db, map[], map[], map[], [])
  }

  /** The rest of the transaction once both rows are locked.  It decides on the copies it read
      when it took the locks. */
  function Finish(db: Tables, input: ExtendInput, token: TokenRow, session: SessionRow): (Tables, ExtendReply)
    requires input.oldHash in db.tokens && token.sessionId in db.sessions
  {
    var identity := Identity(session.userId, token.sessionId);
    var now := input.token.createdAt;
    if !Active(session, now) then (db, SessionInactive)
    else if token.usedAt.Some? then
      if token.requestId == Some(input.operation) then (db, Retry(identity))
      else (Revoke(db, token.sessionId, now), Reused(identity))
    else if !Insertable(db.tokens, input.token) then (db, Unavailable)
    else (Rotate(db, input, token.sessionId), Rotated(identity))
  }

  function FinishAttempt(
      db: Tables, input: ExtendInput, token: TokenRow, session: SessionRow, fault: Fault): (Tables, ExtendReply)
    requires input.oldHash in db.tokens && token.sessionId in db.sessions
  {
    var (after, reply) := Finish(db, input, token, session);
    Attempted(db, after, reply, fault)
  }

  /** A lock step is possible when the row is missing, which ends the transaction, or free. */
  predicate Enabled(w: World, a: Action) {
    match a
    case Begin(t, _) => t !in w.txs
    case LockToken(t) =>
      t in w.txs && w.txs[t].phase.Begun? && w.txs[t].input.oldHash !in w.tokenLocks
    case LockSession(t) =>
      t in w.txs && w.txs[t].phase.TokenLocked? && w.txs[t].phase.token.sessionId !in w.sessionLocks
    case Conclude(t, _) =>
      && t in w.txs && w.txs[t].phase.BothLocked?
      && w.txs[t].input.oldHash in w.db.tokens && w.txs[t].phase.token.sessionId in w.db.sessions
    case Abort(t) => t in w.txs && !w.txs[t].phase.Done?
    case Login(_, _) => true
  }

  /** End transaction `t`: release what it holds and enter it in the serial order. */
  function End(w: World, t: nat, db: Tables, fault: Fault, reply: ExtendReply): World
    requires t in w.txs
  {
    World(
      db,
      w.txs[t := w.txs[t].(phase := Done(reply))],
      map h | h in w.tokenLocks && w.tokenLocks[h] != t :: w.tokenLocks[h],
      map s | s in w.sessionLocks && w.sessionLocks[s] != t :: w.sessionLocks[s],
      w.log + [Entry(Some(t), ExtendCall(w.txs[t].input, fault), reply)])
  }

  /** The world after one action; an action that is not possible changes nothing. */
  function Next(w: World, a: Action): World {
    if !Enabled(w, a) then w
    else
      match a
      case Begin(t, input) => w.(txs := w.txs[t := Tx(input, Begun)])
      case LockToken(t) =>
        var h := w.txs[t].input.oldHash;
        if h !in w.db.tokens then End(w, t, w.db, Healthy, TokenNotFound)
        else w.(txs := w.txs[t := w.txs[t].(phase := TokenLocked(w.db.tokens[h]))],
                tokenLocks := w.tokenLocks[h := t])
      case LockSession(t) =>
        var token := w.txs[t].phase.token;
        if token.sessionId !in w.db.sessions then End(w, t, w.db, Healthy, SessionNotFound)
        else w.(txs := w.txs[t := w.txs[t].(phase := BothLocked(token, w.db.sessions[token.sessionId]))],
                sessionLocks := w.sessionLocks[token.sessionId := t])
      case Conclude(t, fault) =>
        var (db, reply) :=
          FinishAttempt(w.db, w.txs[t].input, w.txs[t].phase.token, w.txs[t].phase.session, fault);
        End(w, t, db, fault, reply)
      case Abort(t) => End(w, t, w.db, FailsAt(0), Unavailable)
      case Login(create, fault) =>
        var (db, ok) := CreateAttempt(w.db, create, fault);
        w.(db := db, log := w.log + [Entry(None, CreateCall(create, fault), Unavailable)])
  }

  function Run(w: World, actions: seq<Action>): World {
    if actions == [] then w
    else Next(Run(w, actions[..|actions| - 1]), actions[|actions| - 1])
  }

  // ---------------------------------------------------------------------------------------
  // Locks
  // ---------------------------------------------------------------------------------------

  /** Transaction `t` owns the rows its phase says, and its copies are what the tables hold. */
  ghost predicate OwnsItsRows(w: World, t: nat)
    requires t in w.txs
  {
    var tx := w.txs[t];
    && (tx.phase.TokenLocked? || tx.phase.BothLocked? ==>
          && tx.input.oldHash in w.tokenLocks && w.tokenLocks[tx.input.oldHash] == t
          && tx.input.oldHash in w.db.tokens && w.db.tokens[tx.input.oldHash] == tx.phase.token)
    && (tx.phase.BothLocked? ==>
          && tx.phase.token.sessionId in w.sessionLocks && w.sessionLocks[tx.phase.token.sessionId] == t
          && tx.phase.token.sessionId in w.db.sessions
          && w.db.sessions[tx.phase.token.sessionId] == tx.phase.session)
  }

  ghost predicate LocksInv(w: World) {
    && (forall t :: t in w.txs ==> OwnsItsRows(w, t))
    && (forall h :: h in w.tokenLocks ==>
          var t := w.tokenLocks[h];
          t in w.txs && w.txs[t].input.oldHash == h && (w.txs[t].phase.TokenLocked? || w.txs[t].phase.BothLocked?))
    && (forall s :: s in w.sessionLocks ==>
          var t := w.sessionLocks[s];
          t in w.txs && w.txs[t].phase.BothLocked? && w.txs[t].phase.token.sessionId == s)
  }

  /** The locked copies make the split transaction decide and write what the atomic one would. */
  lemma FinishIsAtomic(w: World, t: nat, fault: Fault)
    requires LocksInv(w) && t in w.txs && w.txs[t].phase.BothLocked?
    ensures w.txs[t].input.oldHash in w.db.tokens && w.txs[t].phase.token.sessionId in w.db.sessions
    ensures FinishAttempt(w.db, w.txs[t].input, w.txs[t].phase.token, w.txs[t].phase.session, fault)
         == ExtendAttempt(w.db, w.txs[t].input, fault)
  {
  }

  /** An atomic call writes only its own token and session rows. */
  lemma WritesStayInside(db: Tables, e: ExtendInput, fault: Fault, token: TokenRow)
    requires e.oldHash in db.tokens && db.tokens[e.oldHash] == token
    ensures var after := ExtendAttempt(db, e, fault).0;
            && (forall h :: h in db.tokens && h != e.oldHash ==> h in after.tokens && after.tokens[h] == db.tokens[h])
            && (forall s :: s in db.sessions && s != token.sessionId ==>
                  s in after.sessions && after.sessions[s] == db.sessions[s])
  {
  }

  lemma EndKeepsLocks(w: World, t: nat, db: Tables, fault: Fault, reply: ExtendReply)
    requires LocksInv(w) && t in w.txs && !w.txs[t].phase.Done?
    requires || db == w.db
             || (&& w.txs[t].phase.BothLocked?
                 && (forall h :: h in w.db.tokens && h != w.txs[t].input.oldHash ==>
                                   h in db.tokens && db.tokens[h] == w.db.tokens[h])
                 && (forall s :: s in w.db.sessions && s != w.txs[t].phase.token.sessionId ==>
                                   s in db.sessions && db.sessions[s] == w.db.sessions[s]))
    ensures LocksInv(End(w, t, db, fault, reply))
  {
  }

  lemma LoginKeepsLocks(w: World, create: CreateInput, fault: Fault)
    requires LocksInv(w)
    ensures LocksInv(Next(w, Login(create, fault)))
  {
  }

  lemma BeginKeepsLocks(w: World, t: nat, input: ExtendInput)
    requires LocksInv(w) && t !in w.txs
    ensures LocksInv(Next(w, Begin(t, input)))
  {
  }

  lemma LockTokenKeepsLocks(w: World, t: nat)
    requires LocksInv(w) && Enabled(w, LockToken(t)) && w.txs[t].input.oldHash in w.db.tokens
    ensures LocksInv(Next(w, LockToken(t)))
  {
  }

  lemma LockSessionKeepsLocks(w: World, t: nat)
    requires LocksInv(w) && Enabled(w, LockSession(t)) && w.txs[t].phase.token.sessionId in w.db.sessions
    ensures LocksInv(Next(w, LockSession(t)))
  {
  }

  lemma NextKeepsLocks(w: World, a: Action)
    requires LocksInv(w)
    ensures LocksInv(Next(w, a))
  {
    if Enabled(w, a) {
      match a
      case Begin(t, input) => BeginKeepsLocks(w, t, input);
      case LockToken(t) =>
        if w.txs[t].input.oldHash in w.db.tokens {
          LockTokenKeepsLocks(w, t);
        } else {
          EndKeepsLocks(w, t, w.db, Healthy, TokenNotFound);
        }
      case LockSession(t) =>
        if w.txs[t].phase.token.sessionId in w.db.sessions {
          LockSessionKeepsLocks(w, t);
        } else {
          EndKeepsLocks(w, t, w.db, Healthy, SessionNotFound);
        }
      case Conclude(t, fault) =>
        FinishIsAtomic(w, t, fault);
        assert OwnsItsRows(w, t);
        WritesStayInside(w.db, w.txs[t].input, fault, w.txs[t].phase.token);
        var (db, reply) := ExtendAttempt(w.db, w.txs[t].input, fault);
        EndKeepsLocks(w, t, db, fault, reply);
      case Abort(t) => EndKeepsLocks(w, t, w.db, FailsAt(0), Unavailable);
      case Login(create, fault) => LoginKeepsLocks(w, create, fault);
    }
  }

  lemma {:induction false} RunKeepsLocks(db: Tables, actions: seq<Action>)
    ensures LocksInv(Run(Start(db), actions))
  {
    if actions != [] {
      RunKeepsLocks(db, actions[..|actions| - 1]);
      NextKeepsLocks(Run(Start(db), actions[..|actions| - 1]), actions[|actions| - 1]);
    }
  }

  // ---------------------------------------------------------------------------------------
  // Serial order
  // ---------------------------------------------------------------------------------------

  function Calls(log: seq<Entry>): (calls: seq<Call>)
    ensures |calls| == |log| && forall i :: 0 <= i < |log| ==> calls[i] == log[i].call
  {
    seq(|log|, i requires 0 <= i < |log| => log[i].call)
  }

  /** Entry `i` was answered as the atomic transaction answers at its place in the order. */
  ghost predicate Explains(db: Tables, log: seq<Entry>, i: nat)
    requires i < |log|
  {
    log[i].call.ExtendCall? ==>
      log[i].reply == ExtendAttempt(After(db, Calls(log[..i])), log[i].call.extend, log[i].call.fault).1
  }

  /** Running the log atomically from `db` gives exactly the tables of `w` and every answer,
      and a transaction is in the log exactly once if it is done and not at all before. */
  ghost predicate Serialised(db: Tables, w: World) {
    && After(db, Calls(w.log)) == w.db
    && (forall i :: 0 <= i < |w.log| ==> Explains(db, w.log, i))
    && (forall i :: 0 <= i < |w.log| && w.log[i].who.Some? ==>
          && w.log[i].who.value in w.txs
          && w.txs[w.log[i].who.value].phase == Done(w.log[i].reply)
          && w.log[i].call.ExtendCall? && w.log[i].call.extend == w.txs[w.log[i].who.value].input)
    && (forall i, j :: 0 <= i < j < |w.log| && w.log[i].who.Some? ==> w.log[i].who != w.log[j].who)
    && (forall t :: t in w.txs && w.txs[t].phase.Done? ==> Logged(w.log, t))
  }

  ghost predicate Logged(log: seq<Entry>, t: nat) {
    exists i :: 0 <= i < |log| && log[i].who == Some(t)
  }

  lemma LongerLog(db: Tables, log: seq<Entry>, entry: Entry)
    ensures After(db, Calls(log + [entry])) == Apply(After(db, Calls(log)), entry.call)
    ensures forall i :: 0 <= i < |log| && Explains(db, log, i) ==> Explains(db, log + [entry], i)
  {
    var longer := log + [entry];
    assert Calls(longer)[..|log|] == Calls(log);
    forall i | 0 <= i < |log| && Explains(db, log, i) ensures Explains(db, longer, i) {
      assert longer[..i] == log[..i];
    }
  }

  lemma {:induction false} EndIsSerial(db0: Tables, w: World, t: nat, db: Tables, fault: Fault, reply: ExtendReply)
    requires Serialised(db0, w) && t in w.txs && !w.txs[t].phase.Done?
    requires (db, reply) == ExtendAttempt(w.db, w.txs[t].input, fault)
    ensures Serialised(db0, End(w, t, db, fault, reply))
  {
    var after := End(w, t, db, fault, reply);
    var entry := Entry(Some(t), ExtendCall(w.txs[t].input, fault), reply);
    LongerLog(db0, w.log, entry);
    assert after.log[..|w.log|] == w.log;
    forall u | u in after.txs && after.txs[u].phase.Done? ensures Logged(after.log, u) {
      if u == t {
        assert after.log[|w.log|].who == Some(t);
      } else {
        var i :| 0 <= i < |w.log| && w.log[i].who == Some(u);
        assert after.log[i].who == Some(u);
      }
    }
  }

  lemma {:induction false} LoginIsSerial(db0: Tables, w: World, create: CreateInput, fault: Fault)
    requires Serialised(db0, w)
    ensures Serialised(db0, Next(w, Login(create, fault)))
  {
    var after := Next(w, Login(create, fault));
    LongerLog(db0, w.log, Entry(None, CreateCall(create, fault), Unavailable));
    forall u | u in after.txs && after.txs[u].phase.Done? ensures Logged(after.log, u) {
      var i :| 0 <= i < |w.log| && w.log[i].who == Some(u);
      assert after.log[i].who == Some(u);
    }
  }

  /** A step that only begins a transaction or takes a lock leaves the order as it is. */
  lemma QuietIsSerial(db0: Tables, w: World, after: World)
    requires Serialised(db0, w) && after.db == w.db && after.log == w.log
    requires forall t :: t in w.txs ==> t in after.txs && after.txs[t].input == w.txs[t].input
    requires forall t :: t in w.txs && w.txs[t].phase.Done? ==> after.txs[t] == w.txs[t]
    requires forall t :: t in after.txs && after.txs[t].phase.Done? ==> t in w.txs && w.txs[t].phase.Done?
    ensures Serialised(db0, after)
  {
  }

  lemma ConcludeIsSerial(db0: Tables, w: World, t: nat, fault: Fault)
    requires LocksInv(w) && Serialised(db0, w) && Enabled(w, Conclude(t, fault))
    ensures Serialised(db0, Next(w, Conclude(t, fault)))
  {
    FinishIsAtomic(w, t, fault);
    var (db, reply) := ExtendAttempt(w.db, w.txs[t].input, fault);
    EndIsSerial(db0, w, t, db, fault, reply);
  }

  lemma LockTokenIsSerial(db0: Tables, w: World, t: nat)
    requires Serialised(db0, w) && Enabled(w, LockToken(t))
    ensures Serialised(db0, Next(w, LockToken(t)))
  {
    if w.txs[t].input.oldHash !in w.db.tokens {
      EndIsSerial(db0, w, t, w.db, Healthy, TokenNotFound);
    } else {
      QuietIsSerial(db0, w, Next(w, LockToken(t)));
    }
  }

  lemma LockSessionIsSerial(db0: Tables, w: World, t: nat)
    requires Serialised(db0, w) && Enabled(w, LockSession(t)) && OwnsItsRows(w, t)
    ensures Serialised(db0, Next(w, LockSession(t)))
  {
    if w.txs[t].phase.token.sessionId !in w.db.sessions {
      EndIsSerial(db0, w, t, w.db, Healthy, SessionNotFound);
    } else {
      QuietIsSerial(db0, w, Next(w, LockSession(t)));
    }
  }

  lemma NextIsSerial(db0: Tables, w: World, a: Action)
    requires LocksInv(w) && Serialised(db0, w)
    ensures Serialised(db0, Next(w, a))
  {
    if Enabled(w, a) {
      match a
      case Begin(_, _) => QuietIsSerial(db0, w, Next(w, a));
      case LockToken(t) => LockTokenIsSerial(db0, w, t);
      case LockSession(t) => LockSessionIsSerial(db0, w, t);
      case Conclude(t, fault) => ConcludeIsSerial(db0, w, t, fault);
      case Abort(t) => EndIsSerial(db0, w, t, w.db, FailsAt(0), Unavailable);
      case Login(create, fault) => LoginIsSerial(db0, w, create, fault);
    }
  }

  /** Every interleaving of any number of transactions, with failures at any point, is explained
      by running them one at a time in the order in which they ended. */
  lemma {:induction false} Serialisable(db: Tables, actions: seq<Action>)
    ensures Serialised(db, Run(Start(db), actions))
  {
    if actions != [] {
      var front := actions[..|actions| - 1];
      Serialisable(db, front);
      RunKeepsLocks(db, front);
      NextIsSerial(db, Run(Start(db), front), actions[|actions| - 1]);
    }
  }

  /** The serial order respects real time: what has ended stays where it is in the log, so a
      transaction begun later is placed later. */
  lemma {:induction false} LogOnlyGrows(w: World, actions: seq<Action>)
    ensures w.log <= Run(w, actions).log
    ensures forall t :: t in w.txs && w.txs[t].phase.Done? ==>
              t in Run(w, actions).txs && Run(w, actions).txs[t] == w.txs[t]
  {
    if actions != [] {
      LogOnlyGrows(w, actions[..|actions| - 1]);
      NextGrowsLog(Run(w, actions[..|actions| - 1]), actions[|actions| - 1]);
    }
  }

  lemma NextGrowsLog(w: World, a: Action)
    ensures w.log <= Next(w, a).log
    ensures forall t :: t in w.txs && w.txs[t].phase.Done? ==> t in Next(w, a).txs && Next(w, a).txs[t] == w.txs[t]
  {
  }

  predicate FromService(a: Action, lifetime: Time) {
    && (a.Begin? ==> a.input.lifetime == lifetime)
    && (a.Login? ==> CreateCall(a.create, a.fault).FromService(lifetime))
  }

  ghost predicate LogFromService(w: World, lifetime: Time) {
    && (forall t :: t in w.txs ==> w.txs[t].input.lifetime == lifetime)
    && (forall i :: 0 <= i < |w.log| ==> w.log[i].call.FromService(lifetime))
  }

  lemma NextFromService(w: World, a: Action, lifetime: Time)
    requires LogFromService(w, lifetime) && FromService(a, lifetime)
    ensures LogFromService(Next(w, a), lifetime)
  {
  }

  lemma {:induction false} RunFromService(actions: seq<Action>, lifetime: Time)
    requires forall i :: 0 <= i < |actions| ==> FromService(actions[i], lifetime)
    ensures LogFromService(Run(Start(EMPTY), actions), lifetime)
  {
    if actions != [] {
      RunFromService(actions[..|actions| - 1], lifetime);
      NextFromService(Run(Start(EMPTY), actions[..|actions| - 1]), actions[|actions| - 1], lifetime);
    }
  }

  lemma SerialTables(db: Tables, w: World)
    requires Serialised(db, w)
    ensures After(db, Calls(w.log)) == w.db
  {
  }

  /** Hence every invariant of the atomic transactions holds of the interleaved ones: each
      session keeps its one linear chain. */
  lemma {:induction false} ChainsUnderConcurrency(actions: seq<Action>, lifetime: Time)
    requires forall i :: 0 <= i < |actions| ==> FromService(actions[i], lifetime)
    ensures Inv(Run(Start(EMPTY), actions).db, lifetime)
  {
    var w := Run(Start(EMPTY), actions);
    Serialisable(EMPTY, actions);
    SerialTables(EMPTY, w);
    RunFromService(actions, lifetime);
    ChainInvariant(Calls(w.log), lifetime);
  }

  // ---------------------------------------------------------------------------------------
  // No deadlock
  // ---------------------------------------------------------------------------------------

  /** `t` cannot move because `u` holds the row it asks for next. */
  ghost predicate WaitsFor(w: World, t: nat, u: nat) {
    && t in w.txs
    && ((&& w.txs[t].phase.Begun?
         && w.txs[t].input.oldHash in w.tokenLocks && w.tokenLocks[w.txs[t].input.oldHash] == u)
        || (&& w.txs[t].phase.TokenLocked?
            && w.txs[t].phase.token.sessionId in w.sessionLocks
            && w.sessionLocks[w.txs[t].phase.token.sessionId] == u))
  }

  function Rank(phase: Phase): nat {
    match phase
    case Begun => 0
    case TokenLocked(_) => 1
    case BothLocked(_, _) => 2
    case Done(_) => 3
  }

  function RankOf(w: World, t: nat): nat {
    if t in w.txs then Rank(w.txs[t].phase) else 0
  }

  /** A ring of waiting transactions, each waiting for the next and the last for the first. */
  ghost predicate Ring(w: World, ring: seq<nat>) {
    && |ring| > 0
    && (forall i :: 0 <= i < |ring| - 1 ==> WaitsFor(w, ring[i], ring[i + 1]))
    && WaitsFor(w, ring[|ring| - 1], ring[0])
  }

  lemma {:induction false} RankClimbs(w: World, ring: seq<nat>, k: nat)
    requires LocksInv(w) && Ring(w, ring) && k < |ring|
    ensures RankOf(w, ring[k]) >= RankOf(w, ring[0]) + k
  {
    if k > 0 {
      RankClimbs(w, ring, k - 1);
      assert WaitsFor(w, ring[k - 1], ring[k]);
    }
  }

  /** The token-then-session order never deadlocks, however many transactions run. */
  lemma NoDeadlock(db: Tables, actions: seq<Action>, ring: seq<nat>)
    ensures !Ring(Run(Start(db), actions), ring)
  {
    var w := Run(Start(db), actions);
    RunKeepsLocks(db, actions);
    if Ring(w, ring) {
      RankClimbs(w, ring, |ring| - 1);
    }
  }

  predicate Moves(a: Action) {
    a.LockToken? || a.LockSession? || a.Conclude? || a.Abort?
  }

  /** Whenever a transaction is unfinished, one that is at least as far can take its next step. */
  lemma SomeoneCanMove(db: Tables, actions: seq<Action>, t: nat) returns (a: Action)
    requires var w := Run(Start(db), actions); t in w.txs && !w.txs[t].phase.Done?
    ensures var w := Run(Start(db), actions);
            && Moves(a) && !a.Abort? && Enabled(w, a)
            && RankOf(w, a.tx) >= RankOf(w, t) && RankOf(Next(w, a), a.tx) > RankOf(w, a.tx)
  {
    var w := Run(Start(db), actions);
    RunKeepsLocks(db, actions);
    var u := t;
    if w.txs[u].phase.Begun? && w.txs[u].input.oldHash in w.tokenLocks {
      u := w.tokenLocks[w.txs[u].input.oldHash];
    }
    if w.txs[u].phase.TokenLocked? && w.txs[u].phase.token.sessionId in w.sessionLocks {
      u := w.sessionLocks[w.txs[u].phase.token.sessionId];
    }
    assert OwnsItsRows(w, u);
    a := match w.txs[u].phase
      case Begun => LockToken(u)
      case TokenLocked(_) => LockSession(u)
      case _ => Conclude(u, Healthy);
  }

  /** Steps still to take, at most: three for each transaction. */
  ghost function Remaining(w: World): nat {
    Sum(StepsLeft(w.txs))
  }

  function StepsLeft(txs: map<nat, Tx>): map<nat, nat> {
    map t | t in txs :: 3 - Rank(txs[t].phase)
  }

  lemma MoveClimbs(w: World, a: Action)
    requires Moves(a) && Enabled(w, a)
    ensures a.tx in w.txs && a.tx in Next(w, a).txs
    ensures Next(w, a).txs == w.txs[a.tx := Next(w, a).txs[a.tx]]
    ensures Rank(Next(w, a).txs[a.tx].phase) > Rank(w.txs[a.tx].phase)
  {
  }

  lemma MoveShortens(w: World, a: Action)
    requires Moves(a) && Enabled(w, a)
    ensures Remaining(Next(w, a)) < Remaining(w)
  {
    MoveClimbs(w, a);
    StepShortens(w.txs, a.tx, Next(w, a).txs[a.tx]);
  }

  lemma StepShortens(txs: map<nat, Tx>, t: nat, tx: Tx)
    requires t in txs && Rank(tx.phase) > Rank(txs[t].phase)
    ensures Sum(StepsLeft(txs[t := tx])) < Sum(StepsLeft(txs))
  {
    assert StepsLeft(txs[t := tx]) == StepsLeft(txs)[t := 3 - Rank(tx.phase)];
    SumUpdate(StepsLeft(txs), t, 3 - Rank(tx.phase));
  }

  /** So `n` transactions end after at most `3 * n` steps: a run of possible moves is never
      longer than what remains. */
  lemma {:induction false} RunsEnd(w: World, actions: seq<Action>)
    requires forall i :: 0 <= i < |actions| ==> Moves(actions[i]) && Enabled(Run(w, actions[..i]), actions[i])
    ensures Remaining(Run(w, actions)) + |actions| <= Remaining(w)
  {
    if actions != [] {
      var front := actions[..|actions| - 1];
      forall i | 0 <= i < |front| ensures Moves(front[i]) && Enabled(Run(w, front[..i]), front[i]) {
        assert front[..i] == actions[..i] && front[i] == actions[i];
      }
      RunsEnd(w, front);
      assert front == actions[..|front|];
      MoveShortens(Run(w, front), actions[|actions| - 1]);
    }
  }
}
