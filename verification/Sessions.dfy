/** The tables `auth_sessions` and `refresh_tokens` and the transactions over them
    (internal/adapter/repository/postgres/session_repository.go). */
module Sessions {
  import opened Core

  datatype SessionRow = SessionRow(userId: Uuid, createdAt: Time, expiresAt: Time, revokedAt: Option<Time>)

  datatype TokenRow = TokenRow(
    id: Uuid, sessionId: Uuid, createdAt: Time, usedAt: Option<Time>, requestId: Option<Uuid>)

  /** Sessions by primary key; refresh tokens by their unique `token_hash`. */
  datatype Tables = Tables(sessions: map<Uuid, SessionRow>, tokens: map<Hash, TokenRow>)

  const EMPTY := Tables(map[], map[])

  datatype Identity = Identity(userId: Uuid, sessionId: Uuid)

  datatype NewToken = NewToken(id: Uuid, hash: Hash, createdAt: Time)

  datatype CreateInput = CreateInput(
    sessionId: Uuid, userId: Uuid, createdAt: Time, expiresAt: Time, token: NewToken)

  datatype ExtendInput = ExtendInput(operation: Uuid, oldHash: Hash, token: NewToken, lifetime: Time)

  datatype ExtendReply =
    | Rotated(identity: Identity)
    | Retry(identity: Identity)
    | Reused(identity: Identity)
    | TokenNotFound
    | SessionNotFound
    | SessionInactive
    | Unavailable

  datatype StateReply = StateFound(row: SessionRow) | StateMissing | StateUnread

  /** `revoked_at IS NULL AND expires_at > now`: what an uncached check answers. */
  predicate Active(row: SessionRow, now: Time) {
    row.revokedAt.None? && now < row.expiresAt
  }

  /** A refresh-token insert passes the primary key and the unique hash. */
  predicate Insertable(tokens: map<Hash, TokenRow>, token: NewToken) {
    token.hash !in tokens && forall h :: h in tokens ==> tokens[h].id != token.id
  }

  // ---------------------------------------------------------------------------------------
  // The transactions as atomic steps
  // ---------------------------------------------------------------------------------------

  function Create(db: Tables, input: CreateInput): (Tables, bool) {
    if input.sessionId in db.sessions || !Insertable(db.tokens, input.token) then (db, false)
    else
      (Tables(
         db.sessions[input.sessionId := SessionRow(input.userId, input.createdAt, input.expiresAt, None)],
         db.tokens[input.token.hash :=
           TokenRow(input.token.id, input.sessionId, input.token.createdAt, None, None)]),
       true)
  }

  function CreateAttempt(db: Tables, input: CreateInput, fault: Fault): (Tables, bool) {
    match fault
    case Healthy => Create(db, input)
    case FailsAt(k) => if k < 4 then (db, false) else Create(db, input)
    case CommitUnacked => (Create(db, input).0, false)
  }

  /** Rotate the unused token: mark it used, insert its successor, move the expiry. */
  function Rotate(db: Tables, input: ExtendInput, sessionId: Uuid): Tables
    requires input.oldHash in db.tokens && sessionId in db.sessions
  {
    var now := input.token.createdAt;
    Tables(
      db.sessions[sessionId := db.sessions[sessionId].(expiresAt := now + input.lifetime)],
      db.tokens[input.oldHash :=
        db.tokens[input.oldHash].(usedAt := Some(now), requestId := Some(input.operation))]
      [input.token.hash := TokenRow(input.token.id, sessionId, now, None, None)])
  }

  function Revoke(db: Tables, sessionId: Uuid, now: Time): Tables
    requires sessionId in db.sessions
  {
    db.(sessions := db.sessions[sessionId := db.sessions[sessionId].(revokedAt := Some(now))])
  }

  function Extend(db: Tables, input: ExtendInput): (Tables, ExtendReply) {
    if input.oldHash !in db.tokens then (db, TokenNotFound)
    else
      var token := db.tokens[input.oldHash];
      if token.sessionId !in db.sessions then (db, SessionNotFound)
      else
        var session := db.sessions[token.sessionId];
        var identity := Identity(session.userId, token.sessionId);
        var now := input.token.createdAt;
        if !Active(session, now) then (db, SessionInactive)
        else if token.usedAt.Some? then
          if token.requestId == Some(input.operation) then (db, Retry(identity))
          else (Revoke(db, token.sessionId, now), Reused(identity))
        else if !Insertable(db.tokens, input.token) then (db, Unavailable)
        else (Rotate(db, input, token.sessionId), Rotated(identity))
  }

  /** How many statements the path to this reply runs, `Begin` and `Commit` included. */
  function Statements(reply: ExtendReply): nat {
    match reply
    case Rotated(_) => 7
    case Reused(_) => 5
    case Retry(_) | SessionNotFound | SessionInactive => 3
    case TokenNotFound => 2
    case Unavailable => 5
  }

  /** What is left of a transaction that would turn `db` into `after`. */
  function Attempted(db: Tables, after: Tables, reply: ExtendReply, fault: Fault): (Tables, ExtendReply) {
    match fault
    case Healthy => (after, reply)
    case FailsAt(k) => if k < Statements(reply) then (db, Unavailable) else (after, reply)
    case CommitUnacked => if reply.Rotated? || reply.Reused? then (after, Unavailable) else (after, reply)
  }

  function ExtendAttempt(db: Tables, input: ExtendInput, fault: Fault): (Tables, ExtendReply) {
    var (after, reply) := Extend(db, input);
    Attempted(db, after, reply, fault)
  }

  /** The answers other than `Unavailable`, each given only for what the tables held: which token was
      presented, whose session it is, and who used the token before. */
  ghost predicate AnswerFits(db: Tables, input: ExtendInput, reply: ExtendReply) {
    var h := input.oldHash;
    match reply
    case TokenNotFound => h !in db.tokens
    case SessionNotFound => h in db.tokens && db.tokens[h].sessionId !in db.sessions
    case SessionInactive =>
      && h in db.tokens && db.tokens[h].sessionId in db.sessions
      && (db.sessions[db.tokens[h].sessionId].revokedAt.Some?
          || db.sessions[db.tokens[h].sessionId].expiresAt <= input.token.createdAt)
    case Unavailable => true
    case _ =>
      && h in db.tokens && db.tokens[h].sessionId == reply.identity.sessionId
      && reply.identity.sessionId in db.sessions
      && db.sessions[reply.identity.sessionId].userId == reply.identity.userId
      && db.sessions[reply.identity.sessionId].revokedAt.None?
      && input.token.createdAt < db.sessions[reply.identity.sessionId].expiresAt
      && (reply.Rotated? <==> db.tokens[h].usedAt.None?)
      && (reply.Retry? <==> db.tokens[h].usedAt.Some? && db.tokens[h].requestId == Some(input.operation))
  }

  /** The one change that the answer stands for. */
  ghost predicate ChangeFits(db: Tables, after: Tables, input: ExtendInput, reply: ExtendReply) {
    var h, now := input.oldHash, input.token.createdAt;
    match reply
    case Rotated(identity) =>
      && h in db.tokens && identity.sessionId in db.sessions && input.token.hash !in db.tokens
      && after.tokens == db.tokens[h := db.tokens[h].(usedAt := Some(now), requestId := Some(input.operation))]
           [input.token.hash := TokenRow(input.token.id, identity.sessionId, now, None, None)]
      && after.sessions == db.sessions[identity.sessionId :=
           db.sessions[identity.sessionId].(expiresAt := now + input.lifetime)]
    case Reused(identity) =>
      && identity.sessionId in db.sessions && after.tokens == db.tokens
      && after.sessions == db.sessions[identity.sessionId :=
           db.sessions[identity.sessionId].(revokedAt := Some(now))]
    case Unavailable => true
    case _ => after == db
  }

  lemma ExtendAnswers(db: Tables, input: ExtendInput, fault: Fault)
    ensures var (after, reply) := ExtendAttempt(db, input, fault);
            && AnswerFits(db, input, reply) && ChangeFits(db, after, input, reply)
            && (reply == Unavailable && fault.Healthy? ==> after == db && !Insertable(db.tokens, input.token))
            && (reply == Unavailable && fault.FailsAt? ==> after == db)
            && (fault.CommitUnacked? ==> !reply.Rotated? && !reply.Reused?)
            && (fault.FailsAt? && fault.statement <= 1 ==> reply == Unavailable)
  {
  }

  /** Marking a token used changes neither its hash nor its id. */
  lemma SameIds(tokens: map<Hash, TokenRow>, h: Hash, row: TokenRow, token: NewToken)
    requires h in tokens && row.id == tokens[h].id
    ensures Insertable(tokens[h := row], token) <==> Insertable(tokens, token)
  {
    var marked := tokens[h := row];
    assert forall g :: g in marked ==> g in tokens && marked[g].id == tokens[g].id;
    assert forall g :: g in tokens ==> g in marked && marked[g].id == tokens[g].id;
  }

  // ---------------------------------------------------------------------------------------
  // The repository: the same transactions, statement by statement
  // ---------------------------------------------------------------------------------------

  class SessionRepository {
    var sessions: map<Uuid, SessionRow>
    var tokens: map<Hash, TokenRow>

    ghost function Db(): Tables
      reads this
    {
      Tables(sessions, tokens)
    }

    constructor ()
      ensures Db() == EMPTY
    {
      sessions, tokens := map[], map[];
    }

    method CreateSession(input: CreateInput, fault: Fault) returns (ok: bool)
      modifies this
      ensures (Db(), ok) == CreateAttempt(old(Db()), input, fault)
      ensures ok ==>
                && input.sessionId !in old(sessions) && input.token.hash !in old(tokens)
                && sessions == old(sessions)[input.sessionId :=
                     SessionRow(input.userId, input.createdAt, input.expiresAt, None)]
                && tokens == old(tokens)[input.token.hash :=
                     TokenRow(input.token.id, input.sessionId, input.token.createdAt, None, None)]
      ensures fault.CommitUnacked? ==> !ok
    {
      if fault == FailsAt(0) {
        return false;
      }
      var savedSessions, savedTokens := sessions, tokens;
      if fault == FailsAt(1) || input.sessionId in sessions {
        return false;
      }
      sessions := sessions[input.sessionId := SessionRow(input.userId, input.createdAt, input.expiresAt, None)];
      if fault == FailsAt(2) || !Insertable(tokens, input.token) {
        sessions, tokens := savedSessions, savedTokens;
        return false;
      }
      tokens := tokens[input.token.hash :=
        TokenRow(input.token.id, input.sessionId, input.token.createdAt, None, None)];
      if fault == FailsAt(3) {
        sessions, tokens := savedSessions, savedTokens;
        return false;
      }
      return fault != CommitUnacked;
    }

    method GetSessionState(id: Uuid, fails: bool) returns (reply: StateReply)
      ensures reply == if fails then StateUnread
                       else if id in sessions then StateFound(sessions[id]) else StateMissing
    {
      if fails {
        return StateUnread;
      }
      if id !in sessions {
        return StateMissing;
      }
      return StateFound(sessions[id]);
    }

    method ExtendSession(input: ExtendInput, fault: Fault) returns (reply: ExtendReply)
      modifies this
      ensures (Db(), reply) == ExtendAttempt(old(Db()), input, fault)
      ensures AnswerFits(old(Db()), input, reply)
      ensures ChangeFits(old(Db()), Db(), input, reply)
      ensures fault.CommitUnacked? ==> !reply.Rotated? && !reply.Reused?
      ensures fault.Healthy? && reply == Unavailable ==> !Insertable(old(tokens), input.token)
    {
      ExtendAnswers(old(Db()), input, fault);
      var now := input.token.createdAt;
      if fault == FailsAt(0) {
        return Unavailable;
      }
      var savedSessions, savedTokens := sessions, tokens;
      if fault == FailsAt(1) {
        return Unavailable;
      }
      if input.oldHash !in tokens {
        return TokenNotFound;
      }
      var token := tokens[input.oldHash];
      if fault == FailsAt(2) {
        return Unavailable;
      }
      if token.sessionId !in sessions {
        return SessionNotFound;
      }
      var session := sessions[token.sessionId];
      if session.revokedAt.Some? || session.expiresAt <= now {
        return SessionInactive;
      }
      var identity := Identity(session.userId, token.sessionId);
      if token.usedAt.Some? {
        if token.requestId.Some? && token.requestId.value == input.operation {
          return Retry(identity);
        }
        if fault == FailsAt(3) {
          return Unavailable;
        }
        sessions := sessions[token.sessionId := sessions[token.sessionId].(revokedAt := Some(now))];
        if fault == FailsAt(4) {
          sessions, tokens := savedSessions, savedTokens;
          return Unavailable;
        }
        return if fault == CommitUnacked then Unavailable else Reused(identity);
      }
      if fault == FailsAt(3) {
        return Unavailable;
      }
      tokens := tokens[input.oldHash :=
        tokens[input.oldHash].(usedAt := Some(now), requestId := Some(input.operation))];
      SameIds(savedTokens, input.oldHash, tokens[input.oldHash], input.token);
      if fault == FailsAt(4) || !Insertable(tokens, input.token) {
        sessions, tokens := savedSessions, savedTokens;
        return Unavailable;
      }
      tokens := tokens[input.token.hash := TokenRow(input.token.id, token.sessionId, now, None, None)];
      if fault == FailsAt(5) {
        sessions, tokens := savedSessions, savedTokens;
        return Unavailable;
      }
      sessions := sessions[token.sessionId := sessions[token.sessionId].(expiresAt := now + input.lifetime)];
      if fault == FailsAt(6) {
        sessions, tokens := savedSessions, savedTokens;
        return Unavailable;
      }
      return if fault == CommitUnacked then Unavailable else Rotated(identity);
    }
  }

  // ---------------------------------------------------------------------------------------
  // The chain of refresh tokens
  // ---------------------------------------------------------------------------------------

  /** `chain` lists every refresh token of the session once, oldest first.  Each token but the
      last was used exactly when its successor was created; the last one, the head, is unused,
      and the session expires one lifetime after the head was created. */
  ghost predicate IsChain(db: Tables, sid: Uuid, chain: seq<Hash>, lifetime: Time) {
    && sid in db.sessions
    && |chain| > 0
    && (forall i, j :: 0 <= i < j < |chain| ==> chain[i] != chain[j])
    && (forall h :: h in chain <==> h in db.tokens && db.tokens[h].sessionId == sid)
    && (forall i :: 0 <= i < |chain| - 1 ==>
          db.tokens[chain[i]].usedAt == Some(db.tokens[chain[i + 1]].createdAt))
    && db.tokens[chain[|chain| - 1]].usedAt.None?
    && db.sessions[sid].expiresAt == db.tokens[chain[|chain| - 1]].createdAt + lifetime
  }

  ghost predicate HasChain(db: Tables, sid: Uuid, lifetime: Time) {
    exists chain :: IsChain(db, sid, chain, lifetime)
  }

  /** The CHECK, FOREIGN KEY and PRIMARY KEY clauses of migration 000004. */
  ghost predicate Constrained(db: Tables) {
    && (forall h :: h in db.tokens ==> db.tokens[h].sessionId in db.sessions)
    && (forall h :: h in db.tokens ==> (db.tokens[h].usedAt.Some? <==> db.tokens[h].requestId.Some?))
    && DistinctIds(db.tokens)
  }

  ghost predicate DistinctIds(tokens: map<Hash, TokenRow>) {
    forall g, h :: g in tokens && h in tokens && tokens[g].id == tokens[h].id ==> g == h
  }

  ghost predicate Inv(db: Tables, lifetime: Time) {
    && Constrained(db)
    && forall sid :: sid in db.sessions ==> HasChain(db, sid, lifetime)
  }

  datatype Call =
    | CreateCall(create: CreateInput, fault: Fault)
    | ExtendCall(extend: ExtendInput, fault: Fault)
  {
    /** The instant the call carries. */
    function At(): Time {
      match this
      case CreateCall(c, _) => c.createdAt
      case ExtendCall(e, _) => e.token.createdAt
    }

    /** The shape of every call that `Login` and `Refresh` make: one session lifetime, and a
        session born with its first token. */
    predicate FromService(lifetime: Time) {
      match this
      case CreateCall(c, _) => c.token.createdAt == c.createdAt && c.expiresAt == c.createdAt + lifetime
      case ExtendCall(e, _) => e.lifetime == lifetime
    }
  }

  function Apply(db: Tables, call: Call): Tables {
    match call
    case CreateCall(c, fault) => CreateAttempt(db, c, fault).0
    case ExtendCall(e, fault) => ExtendAttempt(db, e, fault).0
  }

  function After(db: Tables, calls: seq<Call>): Tables {
    if calls == [] then db
    else Apply(After(db, calls[..|calls| - 1]), calls[|calls| - 1])
  }

  lemma AppendedChain(db: Tables, input: ExtendInput, sid: Uuid, chain: seq<Hash>)
    requires IsChain(db, sid, chain, input.lifetime)
    requires chain[|chain| - 1] == input.oldHash && Insertable(db.tokens, input.token)
    ensures IsChain(Rotate(db, input, sid), sid, chain + [input.token.hash], input.lifetime)
  {
  }

  /** A session and its tokens are the same in both states. */
  ghost predicate SameSession(db: Tables, after: Tables, sid: Uuid) {
    && sid in db.sessions && sid in after.sessions
    && after.sessions[sid] == db.sessions[sid]
    && (forall h :: h in db.tokens && db.tokens[h].sessionId == sid ==>
                      h in after.tokens && after.tokens[h] == db.tokens[h])
    && (forall h :: h in after.tokens && after.tokens[h].sessionId == sid ==>
                      h in db.tokens && db.tokens[h].sessionId == sid)
  }

  lemma RotateElsewhere(db: Tables, e: ExtendInput, target: Uuid, sid: Uuid)
    requires e.oldHash in db.tokens && db.tokens[e.oldHash].sessionId == target
    requires target in db.sessions && sid in db.sessions && sid != target
    requires Insertable(db.tokens, e.token)
    ensures SameSession(db, Rotate(db, e, target), sid)
  {
  }

  lemma CreateElsewhere(db: Tables, c: CreateInput, sid: Uuid)
    requires sid in db.sessions
    ensures SameSession(db, Create(db, c).0, sid)
  {
  }

  /** Work on one session leaves every other session's chain as it was. */
  lemma OtherChain(db: Tables, after: Tables, sid: Uuid, chain: seq<Hash>, lifetime: Time)
    requires IsChain(db, sid, chain, lifetime) && SameSession(db, after, sid)
    ensures IsChain(after, sid, chain, lifetime)
  {
  }

  /** Presenting a token of an active session is answered by its place in the chain: the head
      rotates, an older token is a retry for the operation that used it and revokes the
      session for any other operation. */
  lemma ReplyByPlace(db: Tables, sid: Uuid, chain: seq<Hash>, k: nat, input: ExtendInput)
    requires Constrained(db) && IsChain(db, sid, chain, input.lifetime)
    requires k < |chain| && input.oldHash == chain[k]
    requires Active(db.sessions[sid], input.token.createdAt)
    ensures var (after, reply) := Extend(db, input);
            && (reply.Rotated? <==> k == |chain| - 1 && Insertable(db.tokens, input.token))
            && (reply.Rotated? ==> IsChain(after, sid, chain + [input.token.hash], input.lifetime))
            && (reply.Retry? <==> k < |chain| - 1 && db.tokens[chain[k]].requestId == Some(input.operation))
            && (reply.Reused? <==> k < |chain| - 1 && db.tokens[chain[k]].requestId != Some(input.operation))
            && (reply.Reused? <==> after.sessions[sid].revokedAt.Some?)
            && (!reply.Rotated? ==> IsChain(after, sid, chain, input.lifetime))
  {
    assert chain[k] in chain;
    assert k < |chain| - 1 ==> db.tokens[chain[k]].usedAt == Some(db.tokens[chain[k + 1]].createdAt);
    if k == |chain| - 1 && Insertable(db.tokens, input.token) {
      AppendedChain(db, input, sid, chain);
    }
  }

  lemma CreateKeepsConstraints(db: Tables, c: CreateInput)
    requires Constrained(db)
    ensures Constrained(Create(db, c).0)
  {
  }

  lemma RotateKeepsConstraints(db: Tables, e: ExtendInput, sid: Uuid)
    requires Constrained(db) && e.oldHash in db.tokens && sid in db.sessions
    requires Insertable(db.tokens, e.token)
    ensures Constrained(Rotate(db, e, sid))
  {
  }

  lemma RevokeKeepsConstraints(db: Tables, sid: Uuid, now: Time)
    requires Constrained(db) && sid in db.sessions
    ensures Constrained(Revoke(db, sid, now))
  {
  }

  lemma ApplyKeepsConstraints(db: Tables, call: Call)
    requires Constrained(db)
    ensures Constrained(Apply(db, call))
  {
    match call
    case CreateCall(c, _) => CreateKeepsConstraints(db, c);
    case ExtendCall(e, _) =>
      var (after, reply) := Extend(db, e);
      if reply.Rotated? {
        RotateKeepsConstraints(db, e, db.tokens[e.oldHash].sessionId);
      } else if reply.Reused? {
        RevokeKeepsConstraints(db, db.tokens[e.oldHash].sessionId, e.token.createdAt);
      }
  }

  lemma CreateKeepsChains(db: Tables, c: CreateInput, sid: Uuid, lifetime: Time)
    requires Constrained(db) && sid in Create(db, c).0.sessions
    requires sid in db.sessions ==> HasChain(db, sid, lifetime)
    requires c.token.createdAt == c.createdAt && c.expiresAt == c.createdAt + lifetime
    ensures HasChain(Create(db, c).0, sid, lifetime)
  {
    var after := Create(db, c).0;
    if sid in db.sessions {
      var chain :| IsChain(db, sid, chain, lifetime);
      CreateElsewhere(db, c, sid);
      OtherChain(db, after, sid, chain, lifetime);
    } else {
      assert IsChain(after, sid, [c.token.hash], lifetime);
    }
  }

  lemma ExtendElsewhere(db: Tables, e: ExtendInput, sid: Uuid)
    requires sid in db.sessions
    requires e.oldHash in db.tokens ==> db.tokens[e.oldHash].sessionId != sid
    ensures SameSession(db, Extend(db, e).0, sid)
  {
    if Extend(db, e).1.Rotated? {
      RotateElsewhere(db, e, db.tokens[e.oldHash].sessionId, sid);
    }
  }

  lemma ExtendKeepsChains(db: Tables, e: ExtendInput, sid: Uuid)
    requires Constrained(db) && sid in db.sessions && HasChain(db, sid, e.lifetime)
    ensures HasChain(Extend(db, e).0, sid, e.lifetime)
  {
    var chain :| IsChain(db, sid, chain, e.lifetime);
    if e.oldHash in chain {
      var k :| 0 <= k < |chain| && chain[k] == e.oldHash;
      if Active(db.sessions[sid], e.token.createdAt) {
        ReplyByPlace(db, sid, chain, k, e);
      }
    } else {
      ExtendElsewhere(db, e, sid);
      OtherChain(db, Extend(db, e).0, sid, chain, e.lifetime);
    }
  }

  /** A call either has the whole effect of its healthy run or none. */
  lemma AllOrNothing(db: Tables, call: Call)
    ensures call.CreateCall? ==> Apply(db, call) == db || Apply(db, call) == Create(db, call.create).0
    ensures call.ExtendCall? ==> Apply(db, call) == db || Apply(db, call) == Extend(db, call.extend).0
  {
  }

  lemma ApplyKeepsChain(db: Tables, call: Call, sid: Uuid, lifetime: Time)
    requires Constrained(db) && call.FromService(lifetime) && sid in Apply(db, call).sessions
    requires sid in db.sessions ==> HasChain(db, sid, lifetime)
    ensures HasChain(Apply(db, call), sid, lifetime)
  {
    AllOrNothing(db, call);
    if Apply(db, call) != db {
      match call
      case CreateCall(c, _) => CreateKeepsChains(db, c, sid, lifetime);
      case ExtendCall(e, _) =>
        assert sid in db.sessions;
        ExtendKeepsChains(db, e, sid);
    }
  }

  lemma ApplyKeepsInv(db: Tables, call: Call, lifetime: Time)
    requires Inv(db, lifetime) && call.FromService(lifetime)
    ensures Inv(Apply(db, call), lifetime)
  {
    ApplyKeepsConstraints(db, call);
    forall sid | sid in Apply(db, call).sessions ensures HasChain(Apply(db, call), sid, lifetime) {
      ApplyKeepsChain(db, call, sid, lifetime);
    }
  }

  /** In every reachable state each session's refresh tokens form one linear chain with one
      unused token, whatever the timestamps, collisions, failures and rollbacks. */
  lemma {:induction false} ChainInvariant(calls: seq<Call>, lifetime: Time)
    requires forall i :: 0 <= i < |calls| ==> calls[i].FromService(lifetime)
    ensures Inv(After(EMPTY, calls), lifetime)
  {
    if calls != [] {
      ChainInvariant(calls[..|calls| - 1], lifetime);
      ApplyKeepsInv(After(EMPTY, calls[..|calls| - 1]), calls[|calls| - 1], lifetime);
    }
  }

  /** No transaction stamped when the session is already revoked or expired touches it. */
  lemma InactiveStaysPut(db: Tables, call: Call, sid: Uuid)
    requires sid in db.sessions && !Active(db.sessions[sid], call.At())
    ensures SameSession(db, Apply(db, call), sid)
  {
    AllOrNothing(db, call);
    match call
    case CreateCall(c, _) => CreateElsewhere(db, c, sid);
    case ExtendCall(e, _) =>
      if e.oldHash in db.tokens && db.tokens[e.oldHash].sessionId == sid {
        assert Extend(db, e) == (db, SessionInactive);
      } else {
        ExtendElsewhere(db, e, sid);
      }
  }

  /** Once revoked, a session's row and chain never change again, at any timestamps.  Once
      expired they never change again as long as no call is stamped before the expiry. */
  lemma {:induction false} DeadSessionIsFrozen(db: Tables, calls: seq<Call>, sid: Uuid)
    requires sid in db.sessions
    requires || db.sessions[sid].revokedAt.Some?
             || forall i :: 0 <= i < |calls| ==> db.sessions[sid].expiresAt <= calls[i].At()
    ensures SameSession(db, After(db, calls), sid)
  {
    if calls != [] {
      var front, last := calls[..|calls| - 1], calls[|calls| - 1];
      DeadSessionIsFrozen(db, front, sid);
      InactiveStaysPut(After(db, front), last, sid);
    }
  }

  /** What one transaction does to the tokens. */
  lemma ExtendOnTokens(db: Tables, e: ExtendInput, fault: Fault)
    ensures var (after, reply) := ExtendAttempt(db, e, fault);
            && (forall h :: h in db.tokens && (h != e.oldHash || db.tokens[h].usedAt.Some?) ==>
                  h in after.tokens && after.tokens[h] == db.tokens[h])
            && (forall h :: h in after.tokens && h !in db.tokens ==> after.tokens[h].usedAt.None?)
            && (e.oldHash in db.tokens && db.tokens[e.oldHash].usedAt.None? ==>
                  && e.oldHash in after.tokens
                  && (|| after.tokens == db.tokens
                      || (&& after.tokens[e.oldHash] == db.tokens[e.oldHash].(
                               usedAt := Some(e.token.createdAt), requestId := Some(e.operation))
                          && e.token.hash in after.tokens && e.token.hash != e.oldHash
                          && after.tokens[e.token.hash] == TokenRow(
                               e.token.id, db.tokens[e.oldHash].sessionId, e.token.createdAt, None, None))))
            && (reply.Rotated? ==>
                  && e.oldHash in db.tokens && db.tokens[e.oldHash].usedAt.None?
                  && e.oldHash in after.tokens && after.tokens[e.oldHash].usedAt.Some?)
            && (reply.Retry? ==>
                  && e.oldHash in db.tokens && db.tokens[e.oldHash].usedAt.Some?
                  && db.tokens[e.oldHash].requestId == Some(e.operation))
  {
  }

  /** A used token keeps its time of use and its operation for ever, so the operation that
      rotated it is the only one ever answered with `Retry`. */
  lemma {:induction false} UseIsFinal(db: Tables, calls: seq<Call>, h: Hash)
    requires h in db.tokens && db.tokens[h].usedAt.Some?
    ensures h in After(db, calls).tokens && After(db, calls).tokens[h] == db.tokens[h]
  {
    if calls != [] {
      UseIsFinal(db, calls[..|calls| - 1], h);
      AllOrNothing(After(db, calls[..|calls| - 1]), calls[|calls| - 1]);
    }
  }
}
