/** Whole runs of the session service: the session cache changes no answer, and access tokens
    die on time (internal/service/auth/service.go). */
module ServiceRuns {
  import opened Core
  import opened Sessions
  import opened Redis
  import opened AuthService
  import Crypto

  datatype Event =
    | LoginEvent(userId: Uuid, sessionId: Uuid, mint: Option<Mint>, fault: Fault, accessCached: bool)
    | RefreshEvent(raw: string, operation: Uuid, mint: Option<Mint>, refreshFaults: RefreshFaults)
    | AuthenticateEvent(token: string, authFaults: AuthFaults)
    | EvictEvent(access: set<Hash>, results: set<Hash>, sessions: set<Uuid>)

  datatype Timed = Timed(at: Time, event: Event)

  datatype Reply =
    | LoginReply(pair: Option<TokenPair>)
    | RefreshReplied(refresh: RefreshReply)
    | Authenticated(auth: AuthReply)
    | Evicted

  function Step(cfg: Config, st: State, e: Timed): (State, Reply) {
    match e.event
    case LoginEvent(user, session, mint, fault, accessCached) =>
      var (after, pair) := LoginStep(cfg, st, user, session, mint, e.at, fault, accessCached);
      (after, LoginReply(pair))
    case RefreshEvent(raw, operation, mint, f) =>
      var (after, reply) := RefreshStep(cfg, st, raw, operation, mint, e.at, f);
      (after, RefreshReplied(reply))
    case AuthenticateEvent(token, f) =>
      var (after, reply) := AuthenticateStep(cfg, st, token, e.at, f);
      (after, Authenticated(reply))
    case EvictEvent(access, results, sessions) =>
      (st.(cache := Cache(st.cache.access - access, st.cache.results - results, st.cache.sessions - sessions)),
       Evicted)
  }

  /** The same service without the session store: `Authenticate` always reads the database. */
  function StepDirect(cfg: Config, st: State, e: Timed): (State, Reply) {
    if e.event.AuthenticateEvent? then
      (st, Authenticated(AuthenticateDirect(cfg, st, e.event.token, e.at, e.event.authFaults)))
    else Step(cfg, st, e)
  }

  const INITIAL := State(EMPTY, NOTHING_CACHED)

  function Run(cfg: Config, events: seq<Timed>): State {
    if events == [] then INITIAL
    else Step(cfg, Run(cfg, events[..|events| - 1]), events[|events| - 1]).0
  }

  function RunDirect(cfg: Config, events: seq<Timed>): State {
    if events == [] then INITIAL
    else StepDirect(cfg, RunDirect(cfg, events[..|events| - 1]), events[|events| - 1]).0
  }

  /** The answer to event `i` with and without the session store. */
  function ReplyTo(cfg: Config, events: seq<Timed>, i: nat): Reply
    requires i < |events|
  {
    Step(cfg, Run(cfg, events[..i]), events[i]).1
  }

  function DirectReplyTo(cfg: Config, events: seq<Timed>, i: nat): Reply
    requires i < |events|
  {
    StepDirect(cfg, RunDirect(cfg, events[..i]), events[i]).1
  }

  ghost predicate Monotone(events: seq<Timed>) {
    forall i, j :: 0 <= i < j < |events| ==> events[i].at <= events[j].at
  }

  /** The transaction of this refresh revokes a session. */
  predicate Revokes(cfg: Config, st: State, e: Timed) {
    e.event.RefreshEvent? && e.event.mint.Some?
    && var input := ExtendInputOf(cfg, e.event.raw, e.event.operation, e.event.mint.value, e.at);
    Extend(st.db, input).1.Reused? && ExtendAttempt(st.db, input, e.event.refreshFaults.db).0 != st.db
  }

  /** If it does, the revocation is acknowledged and the write of the inactive mark takes effect. */
  predicate RevocationReachesCache(cfg: Config, st: State, e: Timed) {
    Revokes(cfg, st, e) ==> e.event.refreshFaults.sessionCached && e.event.refreshFaults.db != CommitUnacked
  }

  ghost predicate RevocationsReachCache(cfg: Config, events: seq<Timed>) {
    forall k :: 0 <= k < |events| ==> RevocationReachesCache(cfg, Run(cfg, events[..k]), events[k])
  }

  lemma FrontReachesCache(cfg: Config, events: seq<Timed>, i: nat)
    requires i <= |events| && RevocationsReachCache(cfg, events)
    ensures RevocationsReachCache(cfg, events[..i])
  {
    var front := events[..i];
    forall k | 0 <= k < |front| ensures RevocationReachesCache(cfg, Run(cfg, front[..k]), front[k]) {
      assert front[..k] == events[..k] && front[k] == events[k];
    }
  }

  // ---------------------------------------------------------------------------------------
  // The session store tells the truth
  // ---------------------------------------------------------------------------------------

  /** An inactive mark belongs to a session that is inactive for good; an active mark lapses no
      later than its session and, when revocations reach the store, its session is not revoked. */
  ghost predicate MarkIsTrue(st: State, id: Uuid, now: Time, exact: bool)
    requires id in st.cache.sessions
  {
    var mark := st.cache.sessions[id];
    && id in st.db.sessions
    && (mark.value ==> mark.deadline <= st.db.sessions[id].expiresAt)
    && (mark.value && exact ==> st.db.sessions[id].revokedAt.None?)
    && (!mark.value ==> !Active(st.db.sessions[id], now))
  }

  ghost predicate CacheInv(cfg: Config, st: State, now: Time, exact: bool) {
    && (forall id :: id in st.cache.sessions ==> MarkIsTrue(st, id, now, exact))
    && (forall id :: id in st.db.sessions ==> st.db.sessions[id].expiresAt <= now + cfg.sessionTimeout)
    && (forall h :: h in st.cache.access ==> st.cache.access[h].value.sessionId in st.db.sessions)
  }

  /** The two services agree on everything but the session store. */
  ghost predicate Alike(c: State, d: State) {
    c.db == d.db && c.cache.access == d.cache.access && c.cache.results == d.cache.results
  }

  lemma TimePasses(cfg: Config, st: State, now: Time, later: Time, exact: bool)
    requires CacheInv(cfg, st, now, exact) && now <= later
    ensures CacheInv(cfg, st, later, exact)
  {
  }

  lemma LoginKeepsCacheInv(cfg: Config, st: State, e: Timed, exact: bool)
    requires cfg.Valid() && e.event.LoginEvent? && CacheInv(cfg, st, e.at, exact)
    ensures CacheInv(cfg, Step(cfg, st, e).0, e.at, exact)
  {
  }

  lemma EvictKeepsCacheInv(cfg: Config, st: State, e: Timed, exact: bool)
    requires e.event.EvictEvent? && CacheInv(cfg, st, e.at, exact)
    ensures CacheInv(cfg, Step(cfg, st, e).0, e.at, exact)
  {
  }

  lemma AuthenticateKeepsCacheInv(cfg: Config, st: State, e: Timed, exact: bool)
    requires e.event.AuthenticateEvent? && CacheInv(cfg, st, e.at, exact)
    ensures CacheInv(cfg, Step(cfg, st, e).0, e.at, exact)
  {
  }

  /** What the transaction inside `Refresh` does to the sessions, by its answer. */
  lemma ExtendMovesForward(cfg: Config, db: Tables, input: ExtendInput, fault: Fault, bound: Time)
    requires input.lifetime == cfg.sessionTimeout && bound == input.token.createdAt + cfg.sessionTimeout
    requires forall id :: id in db.sessions ==> db.sessions[id].expiresAt <= bound
    ensures var (after, reply) := ExtendAttempt(db, input, fault);
            && after.sessions.Keys == db.sessions.Keys
            && (reply.Rotated? || reply.Reused? || reply.Retry? ==> reply.identity.sessionId in db.sessions)
            && (forall id :: id in db.sessions ==>
                  && db.sessions[id].expiresAt <= after.sessions[id].expiresAt <= bound
                  && (!Active(db.sessions[id], input.token.createdAt) ==> after.sessions[id] == db.sessions[id]))
            && (reply.Rotated? ==>
                  && after.sessions[reply.identity.sessionId].expiresAt == bound
                  && after.sessions[reply.identity.sessionId].revokedAt.None?)
            && (reply.Reused? ==> after.sessions[reply.identity.sessionId].revokedAt.Some?)
            && (forall id :: id in db.sessions && fault != CommitUnacked ==>
                  || (reply.Reused? && id == reply.identity.sessionId)
                  || after.sessions[id].revokedAt == db.sessions[id].revokedAt)
  {
  }

  lemma RefreshKeepsMark(cfg: Config, st: State, e: Timed, exact: bool, id: Uuid)
    requires cfg.Valid() && e.event.RefreshEvent? && (exact ==> RevocationReachesCache(cfg, st, e))
    requires forall s :: s in st.db.sessions ==> st.db.sessions[s].expiresAt <= e.at + cfg.sessionTimeout
    requires id in st.cache.sessions ==> MarkIsTrue(st, id, e.at, exact)
    requires id in Step(cfg, st, e).0.cache.sessions
    ensures MarkIsTrue(Step(cfg, st, e).0, id, e.at, exact)
  {
    if e.event.mint.Some? {
      var input := ExtendInputOf(cfg, e.event.raw, e.event.operation, e.event.mint.value, e.at);
      ExtendMovesForward(cfg, st.db, input, e.event.refreshFaults.db, e.at + cfg.sessionTimeout);
    }
  }

  lemma RefreshKeepsCacheInv(cfg: Config, st: State, e: Timed, exact: bool)
    requires cfg.Valid() && e.event.RefreshEvent? && CacheInv(cfg, st, e.at, exact)
    requires exact ==> RevocationReachesCache(cfg, st, e)
    ensures CacheInv(cfg, Step(cfg, st, e).0, e.at, exact)
  {
    var after := Step(cfg, st, e).0;
    if e.event.mint.Some? {
      var input := ExtendInputOf(cfg, e.event.raw, e.event.operation, e.event.mint.value, e.at);
      ExtendMovesForward(cfg, st.db, input, e.event.refreshFaults.db, e.at + cfg.sessionTimeout);
      forall id | id in after.cache.sessions ensures MarkIsTrue(after, id, e.at, exact) {
        assert id in st.cache.sessions ==> MarkIsTrue(st, id, e.at, exact);
        RefreshKeepsMark(cfg, st, e, exact, id);
      }
    }
  }

  lemma StepKeepsCacheInv(cfg: Config, st: State, e: Timed, exact: bool)
    requires cfg.Valid() && CacheInv(cfg, st, e.at, exact)
    requires exact ==> RevocationReachesCache(cfg, st, e)
    ensures CacheInv(cfg, Step(cfg, st, e).0, e.at, exact)
  {
    match e.event
    case LoginEvent(_, _, _, _, _) => LoginKeepsCacheInv(cfg, st, e, exact);
    case RefreshEvent(_, _, _, _) => RefreshKeepsCacheInv(cfg, st, e, exact);
    case AuthenticateEvent(_, _) => AuthenticateKeepsCacheInv(cfg, st, e, exact);
    case EvictEvent(_, _, _) => EvictKeepsCacheInv(cfg, st, e, exact);
  }

  lemma StepKeepsAlike(cfg: Config, c: State, d: State, e: Timed)
    requires Alike(c, d)
    ensures Alike(Step(cfg, c, e).0, StepDirect(cfg, d, e).0)
    ensures !e.event.AuthenticateEvent? ==> Step(cfg, c, e).1 == StepDirect(cfg, d, e).1
  {
  }

  lemma {:induction false} RunInv(cfg: Config, events: seq<Timed>, now: Time, exact: bool)
    requires cfg.Valid() && Monotone(events)
    requires forall i :: 0 <= i < |events| ==> events[i].at <= now
    requires exact ==> RevocationsReachCache(cfg, events)
    ensures CacheInv(cfg, Run(cfg, events), now, exact)
  {
    if events != [] {
      var front, last := events[..|events| - 1], events[|events| - 1];
      if exact {
        FrontReachesCache(cfg, events, |front|);
      }
      RunInv(cfg, front, last.at, exact);
      StepKeepsCacheInv(cfg, Run(cfg, front), last, exact);
      TimePasses(cfg, Run(cfg, events), last.at, now, exact);
    }
  }

  lemma {:induction false} RunsAlike(cfg: Config, events: seq<Timed>)
    ensures Alike(Run(cfg, events), RunDirect(cfg, events))
  {
    if events != [] {
      var front, last := events[..|events| - 1], events[|events| - 1];
      RunsAlike(cfg, front);
      StepKeepsAlike(cfg, Run(cfg, front), RunDirect(cfg, front), last);
    }
  }

  // ---------------------------------------------------------------------------------------
  // The cache is transparent
  // ---------------------------------------------------------------------------------------

  /** The one way to a different answer: a live active mark of a session that was revoked. */
  predicate StaleMark(cfg: Config, st: State, token: string, now: Time, f: AuthFaults) {
    && !f.accessFails && !f.sessionFails
    && match Read(st.cache.access, cfg.hash(token), now)
       case None => false
       case Some(identity) =>
         && Read(st.cache.sessions, identity.sessionId, now) == Some(true)
         && identity.sessionId in st.db.sessions && st.db.sessions[identity.sessionId].revokedAt.Some?
  }

  lemma AnswersCompared(cfg: Config, c: State, d: State, token: string, now: Time, f: AuthFaults, exact: bool)
    requires CacheInv(cfg, c, now, exact) && Alike(c, d)
    ensures var cached, direct := AuthenticateStep(cfg, c, token, now, f).1, AuthenticateDirect(cfg, d, token, now, f);
            && (exact ==> !StaleMark(cfg, c, token, now, f))
            && (!f.dbFails ==> (cached == direct <==> !StaleMark(cfg, c, token, now, f)))
            && (f.dbFails && cached != direct ==> direct == AuthFailed)
            && (direct.Accepted? ==> cached == direct)
            && (cached.Accepted? ==>
                  && cached.identity.sessionId in c.db.sessions
                  && now < c.db.sessions[cached.identity.sessionId].expiresAt)
  {
  }

  lemma PrefixRunInv(cfg: Config, events: seq<Timed>, i: nat, exact: bool)
    requires cfg.Valid() && Monotone(events) && i < |events|
    requires exact ==> RevocationsReachCache(cfg, events[..i])
    ensures CacheInv(cfg, Run(cfg, events[..i]), events[i].at, exact)
    ensures Alike(Run(cfg, events[..i]), RunDirect(cfg, events[..i]))
  {
    RunInv(cfg, events[..i], events[i].at, exact);
    RunsAlike(cfg, events[..i]);
  }

  /** Over every run of logins, refreshes, authentications and evictions in which revocations so far
      reached the session store, whatever else was lost, every answer is the one the service gives
      without that store; only a database that fails just then can make the uncached service answer
      less. */
  lemma CacheTransparency(cfg: Config, events: seq<Timed>, i: nat)
    requires cfg.Valid() && Monotone(events) && i < |events|
    requires RevocationsReachCache(cfg, events[..i])
    ensures || ReplyTo(cfg, events, i) == DirectReplyTo(cfg, events, i)
            || (&& events[i].event.AuthenticateEvent? && events[i].event.authFaults.dbFails
                && DirectReplyTo(cfg, events, i) == Authenticated(AuthFailed))
  {
    PrefixRunInv(cfg, events, i, true);
    var c, d, e := Run(cfg, events[..i]), RunDirect(cfg, events[..i]), events[i];
    if e.event.AuthenticateEvent? {
      AnswersCompared(cfg, c, d, e.event.token, e.at, e.event.authFaults, true);
    } else {
      StepKeepsAlike(cfg, c, d, e);
    }
  }

  /** When cache writes may fail the answer still differs exactly for a live active mark of a
      revoked session: an active session is never rejected, an expired one never accepted. */
  lemma CacheWithLostWrites(cfg: Config, events: seq<Timed>, i: nat)
    requires cfg.Valid() && Monotone(events) && i < |events| && events[i].event.AuthenticateEvent?
    ensures var st, e := Run(cfg, events[..i]), events[i];
            var cached, direct := ReplyTo(cfg, events, i).auth, DirectReplyTo(cfg, events, i).auth;
            && (!e.event.authFaults.dbFails ==>
                  (cached != direct <==> StaleMark(cfg, st, e.event.token, e.at, e.event.authFaults)))
            && (e.event.authFaults.dbFails && cached != direct ==> direct == AuthFailed)
            && (direct.Accepted? ==> cached == direct)
            && (cached.Accepted? ==>
                  && cached.identity.sessionId in st.db.sessions
                  && e.at < st.db.sessions[cached.identity.sessionId].expiresAt)
  {
    PrefixRunInv(cfg, events, i, false);
    var c, d, e := Run(cfg, events[..i]), RunDirect(cfg, events[..i]), events[i];
    AnswersCompared(cfg, c, d, e.event.token, e.at, e.event.authFaults, false);
  }

  // A session is opened and refreshed, its first token is presented again by another operation,
  // and the write of the inactive mark is lost or the revoking commit is not acknowledged.

  const NO_FAULTS := RefreshFaults(Healthy, false, true, true, true)

  function Opened(u: Uuid, s: Uuid): Timed {
    Timed(0, LoginEvent(u, s, Some(Mint("r0", "a0", s)), Healthy, true))
  }

  function Refreshed(s: Uuid, t: Uuid): Timed {
    Timed(0, RefreshEvent("r0", s, Some(Mint("r1", "a1", t)), NO_FAULTS))
  }

  function Stolen(t: Uuid, f: RefreshFaults): Timed {
    Timed(0, RefreshEvent("r0", t, Some(Mint("r2", "a2", t)), f))
  }

  predicate LosesMark(f: RefreshFaults) {
    f == NO_FAULTS.(sessionCached := false) || f == NO_FAULTS.(db := CommitUnacked)
  }

  lemma OpenedAndRefreshed(cfg: Config, u: Uuid, s: Uuid, t: Uuid)
    requires cfg.Valid() && Crypto.Injective(cfg.hash) && s != t
    ensures var st := Step(cfg, Step(cfg, INITIAL, Opened(u, s)).0, Refreshed(s, t)).0;
            && st.cache.access == map[cfg.hash("a0") := Entry(Identity(u, s), cfg.accessLifetime),
                                      cfg.hash("a1") := Entry(Identity(u, s), cfg.accessLifetime)]
            && st.cache.sessions == map[s := Entry(true, cfg.sessionTimeout)]
            && st.db.sessions == map[s := SessionRow(u, 0, cfg.sessionTimeout, None)]
            && st.db.tokens == map[cfg.hash("r0") := TokenRow(s, s, 0, Some(0), Some(s)),
                                   cfg.hash("r1") := TokenRow(t, s, 0, None, None)]
  {
    var first := Step(cfg, INITIAL, Opened(u, s)).0;
    assert first.db == Tables(
      map[s := SessionRow(u, 0, cfg.sessionTimeout, None)], map[cfg.hash("r0") := TokenRow(s, s, 0, None, None)]);
  }

  lemma TheftUnnoticed(cfg: Config, u: Uuid, s: Uuid, t: Uuid, f: RefreshFaults)
    requires LosesMark(f) && cfg.Valid() && Crypto.Injective(cfg.hash) && s != t
    ensures var st := Step(cfg, Step(cfg, Step(cfg, INITIAL, Opened(u, s)).0, Refreshed(s, t)).0, Stolen(t, f)).0;
            && cfg.hash("a1") in st.cache.access
            && st.cache.access[cfg.hash("a1")] == Entry(Identity(u, s), cfg.accessLifetime)
            && st.cache.sessions == map[s := Entry(true, cfg.sessionTimeout)]
            && st.db.sessions == map[s := SessionRow(u, 0, cfg.sessionTimeout, Some(0))]
  {
    OpenedAndRefreshed(cfg, u, s, t);
  }

  lemma StaleMarkAccepts(cfg: Config, st: State, d: State, u: Uuid, s: Uuid, f: AuthFaults)
    requires cfg.Valid() && f == AuthFaults(false, false, false, true) && Alike(st, d)
    requires cfg.hash("a1") in st.cache.access
    requires st.cache.access[cfg.hash("a1")] == Entry(Identity(u, s), cfg.accessLifetime)
    requires st.cache.sessions == map[s := Entry(true, cfg.sessionTimeout)]
    requires st.db.sessions == map[s := SessionRow(u, 0, cfg.sessionTimeout, Some(0))]
    ensures AuthenticateStep(cfg, st, "a1", 0, f).1 == Accepted(Identity(u, s))
    ensures AuthenticateDirect(cfg, d, "a1", 0, f) == Inactive
  {
  }

  lemma RunOfThree(cfg: Config, a: Timed, b: Timed, c: Timed)
    ensures Run(cfg, [a, b, c]) == Step(cfg, Step(cfg, Step(cfg, INITIAL, a).0, b).0, c).0
  {
    assert [a, b, c][..2] == [a, b] && [a, b][..1] == [a] && [a][..0] == [];
    assert Run(cfg, [a]) == Step(cfg, Run(cfg, []), a).0;
    assert Run(cfg, [a, b]) == Step(cfg, Run(cfg, [a]), b).0;
  }

  /** One lost write of an inactive mark, or one unacknowledged revocation, is enough: afterwards the
      service accepts a token of a revoked session, which without the session store it refuses. */
  lemma StaleMarkIsReachable(cfg: Config, u: Uuid, s: Uuid, t: Uuid, f: RefreshFaults)
    requires LosesMark(f) && cfg.Valid() && Crypto.Injective(cfg.hash) && s != t
    ensures var ask := Timed(0, AuthenticateEvent("a1", AuthFaults(false, false, false, true)));
            var events := [Opened(u, s), Refreshed(s, t), Stolen(t, f), ask];
            && ReplyTo(cfg, events, 3) == Authenticated(Accepted(Identity(u, s)))
            && DirectReplyTo(cfg, events, 3) == Authenticated(Inactive)
  {
    var ask := Timed(0, AuthenticateEvent("a1", AuthFaults(false, false, false, true)));
    var events := [Opened(u, s), Refreshed(s, t), Stolen(t, f), ask];
    TheftUnnoticed(cfg, u, s, t, f);
    assert events[..3] == [Opened(u, s), Refreshed(s, t), Stolen(t, f)];
    RunOfThree(cfg, Opened(u, s), Refreshed(s, t), Stolen(t, f));
    RunsAlike(cfg, events[..3]);
    StaleMarkAccepts(cfg, Run(cfg, events[..3]), RunDirect(cfg, events[..3]), u, s, ask.event.authFaults);
  }

  // Two refreshes that overlap: the one that rotated commits first and writes its answer last.

  function Overlapped(cfg: Config, u: Uuid, s: Uuid, t: Uuid): (State, RefreshReply, RefreshReply) {
    var before := Step(cfg, INITIAL, Opened(u, s)).0;
    var rotating, reusing := Mint("r1", "a1", t), Mint("r2", "a2", t);
    var (rotated, rotation) := ExtendAttempt(before.db, ExtendInputOf(cfg, "r0", s, rotating, 0), Healthy);
    var (revoked, reuse) := ExtendAttempt(rotated, ExtendInputOf(cfg, "r0", t, reusing, 0), Healthy);
    var (inactive, second) := AfterExtend(cfg, before.cache, cfg.hash("r0"), reusing.Pair(), reuse, 0, NO_FAULTS);
    var (active, first) := AfterExtend(cfg, inactive, cfg.hash("r0"), rotating.Pair(), rotation, 0, NO_FAULTS);
    (State(revoked, active), first, second)
  }

  /** Without any failure an active mark of a revoked session is left behind as well when calls
      overlap; this is why runs take each call as one instant. */
  lemma OverlapLeavesStaleMark(cfg: Config, u: Uuid, s: Uuid, t: Uuid)
    requires cfg.Valid() && Crypto.Injective(cfg.hash) && s != t
    ensures var (st, first, second) := Overlapped(cfg, u, s, t);
            var f := AuthFaults(false, false, false, true);
            && first == Issued(TokenPair("a1", "r1")) && second == ReuseDetected
            && StaleMark(cfg, st, "a1", 0, f)
            && AuthenticateStep(cfg, st, "a1", 0, f).1 == Accepted(Identity(u, s))
            && AuthenticateDirect(cfg, st, "a1", 0, f) == Inactive
  {
    var h := cfg.hash("r0");
    var db := Step(cfg, INITIAL, Opened(u, s)).0.db;
    assert db == Tables(
      map[s := SessionRow(u, 0, cfg.sessionTimeout, None)], map[h := TokenRow(s, s, 0, None, None)]);
    var rotated := ExtendAttempt(db, ExtendInputOf(cfg, "r0", s, Mint("r1", "a1", t), 0), Healthy).0;
    assert rotated.tokens[h] == TokenRow(s, s, 0, Some(0), Some(s));
    assert rotated.sessions == map[s := SessionRow(u, 0, cfg.sessionTimeout, None)];
  }

  // ---------------------------------------------------------------------------------------
  // The sessions behind the service
  // ---------------------------------------------------------------------------------------

  lemma StepKeepsChains(cfg: Config, st: State, e: Timed)
    requires Inv(st.db, cfg.sessionTimeout)
    ensures Inv(Step(cfg, st, e).0.db, cfg.sessionTimeout)
  {
    match e.event
    case LoginEvent(user, session, mint, fault, _) =>
      if mint.Some? {
        ApplyKeepsInv(st.db, CreateCall(CreateInputOf(cfg, user, session, mint.value, e.at), fault), cfg.sessionTimeout);
      }
    case RefreshEvent(raw, operation, mint, f) =>
      if mint.Some? {
        var input := ExtendInputOf(cfg, raw, operation, mint.value, e.at);
        ApplyKeepsInv(st.db, ExtendCall(input, f.db), cfg.sessionTimeout);
      }
    case _ =>
  }

  /** The calls that the service makes have the shape that the chain invariant asks for: over every
      run each session's tokens form one linear chain with one unused token. */
  lemma {:induction false} SessionsAreChained(cfg: Config, events: seq<Timed>)
    ensures Inv(Run(cfg, events).db, cfg.sessionTimeout)
  {
    if events != [] {
      var front := events[..|events| - 1];
      SessionsAreChained(cfg, front);
      StepKeepsChains(cfg, Run(cfg, front), events[|events| - 1]);
    }
  }

  // ---------------------------------------------------------------------------------------
  // Access tokens die on time
  // ---------------------------------------------------------------------------------------

  /** The mint of the access token with hash `h`, and how long it may live from then on. */
  predicate MintsAccess(cfg: Config, e: Timed, h: Hash) {
    || (e.event.LoginEvent? && e.event.mint.Some? && cfg.hash(e.event.mint.value.access) == h)
    || (e.event.RefreshEvent? && e.event.mint.Some? && cfg.hash(e.event.mint.value.access) == h)
  }

  function LastMoment(cfg: Config, e: Timed): Time {
    e.at + cfg.accessLifetime + if e.event.RefreshEvent? then cfg.retryTTL else 0
  }

  ghost predicate AccessTraced(cfg: Config, events: seq<Timed>, h: Hash, deadline: Time) {
    exists j :: 0 <= j < |events| && MintsAccess(cfg, events[j], h) && deadline <= LastMoment(cfg, events[j])
  }

  ghost predicate ResultTraced(cfg: Config, events: seq<Timed>, h: Hash, deadline: Time) {
    exists j :: 0 <= j < |events| && events[j].event.RefreshEvent? && MintsAccess(cfg, events[j], h)
                && deadline <= events[j].at + cfg.retryTTL
  }

  /** Every access entry and every stored result goes back to the call that minted its token. */
  ghost predicate TokenInv(cfg: Config, events: seq<Timed>, st: State) {
    && (forall h :: h in st.cache.access ==> AccessTraced(cfg, events, h, st.cache.access[h].deadline))
    && (forall r :: r in st.cache.results ==>
          ResultTraced(cfg, events, cfg.hash(st.cache.results[r].value.access), st.cache.results[r].deadline))
  }

  lemma TracedLonger(cfg: Config, events: seq<Timed>, e: Timed, h: Hash, deadline: Time)
    ensures AccessTraced(cfg, events, h, deadline) ==> AccessTraced(cfg, events + [e], h, deadline)
    ensures ResultTraced(cfg, events, h, deadline) ==> ResultTraced(cfg, events + [e], h, deadline)
  {
    var longer := events + [e];
    if AccessTraced(cfg, events, h, deadline) {
      var j :| 0 <= j < |events| && MintsAccess(cfg, events[j], h) && deadline <= LastMoment(cfg, events[j]);
      assert longer[j] == events[j];
    }
    if ResultTraced(cfg, events, h, deadline) {
      var j :| 0 <= j < |events| && events[j].event.RefreshEvent? && MintsAccess(cfg, events[j], h)
               && deadline <= events[j].at + cfg.retryTTL;
      assert longer[j] == events[j];
    }
  }

  /** A retry renews the access entry only while the stored result lives. */
  lemma RenewalTraced(cfg: Config, events: seq<Timed>, h: Hash, now: Time, deadline: Time)
    requires ResultTraced(cfg, events, h, deadline) && now < deadline
    ensures AccessTraced(cfg, events, h, now + cfg.accessLifetime)
  {
  }

  lemma FreshlyTraced(cfg: Config, events: seq<Timed>, e: Timed, h: Hash)
    requires cfg.Valid() && MintsAccess(cfg, e, h)
    ensures AccessTraced(cfg, events + [e], h, e.at + cfg.accessLifetime)
    ensures e.event.RefreshEvent? ==> ResultTraced(cfg, events + [e], h, e.at + cfg.retryTTL)
  {
    assert (events + [e])[|events|] == e;
  }

  /** Every access entry after a call was there before, was minted by the call, or renews a
      token whose stored result is still alive. */
  lemma NewAccessEntries(cfg: Config, st: State, e: Timed, h: Hash)
    requires cfg.Valid() && h in Step(cfg, st, e).0.cache.access
    ensures var access := Step(cfg, st, e).0.cache.access;
            || (h in st.cache.access && access[h] == st.cache.access[h])
            || (access[h].deadline == e.at + cfg.accessLifetime
                && (|| MintsAccess(cfg, e, h)
                    || exists r :: r in st.cache.results && e.at < st.cache.results[r].deadline
                                   && cfg.hash(st.cache.results[r].value.access) == h))
  {
  }

  lemma NewResults(cfg: Config, st: State, e: Timed, r: Hash)
    requires r in Step(cfg, st, e).0.cache.results
    ensures var results := Step(cfg, st, e).0.cache.results;
            || (r in st.cache.results && results[r] == st.cache.results[r])
            || (&& e.event.RefreshEvent? && MintsAccess(cfg, e, cfg.hash(results[r].value.access))
                && results[r].deadline == e.at + cfg.retryTTL)
  {
  }

  lemma StepKeepsTokenInv(cfg: Config, events: seq<Timed>, st: State, e: Timed)
    requires cfg.Valid() && TokenInv(cfg, events, st)
    ensures TokenInv(cfg, events + [e], Step(cfg, st, e).0)
  {
    var after := Step(cfg, st, e).0;
    forall h | h in after.cache.access ensures AccessTraced(cfg, events + [e], h, after.cache.access[h].deadline) {
      NewAccessEntries(cfg, st, e, h);
      TracedLonger(cfg, events, e, h, after.cache.access[h].deadline);
      if h !in st.cache.access || after.cache.access[h] != st.cache.access[h] {
        if MintsAccess(cfg, e, h) {
          FreshlyTraced(cfg, events, e, h);
        } else {
          var r :| r in st.cache.results && e.at < st.cache.results[r].deadline
                   && cfg.hash(st.cache.results[r].value.access) == h;
          RenewalTraced(cfg, events, h, e.at, st.cache.results[r].deadline);
        }
      }
    }
    forall r | r in after.cache.results
      ensures ResultTraced(cfg, events + [e], cfg.hash(after.cache.results[r].value.access),
                           after.cache.results[r].deadline)
    {
      var h := cfg.hash(after.cache.results[r].value.access);
      NewResults(cfg, st, e, r);
      TracedLonger(cfg, events, e, h, after.cache.results[r].deadline);
      if MintsAccess(cfg, e, h) {
        FreshlyTraced(cfg, events, e, h);
      }
    }
  }

  lemma {:induction false} RunKeepsTokenInv(cfg: Config, events: seq<Timed>)
    requires cfg.Valid()
    ensures TokenInv(cfg, events, Run(cfg, events))
  {
    if events != [] {
      var front, last := events[..|events| - 1], events[|events| - 1];
      RunKeepsTokenInv(cfg, front);
      StepKeepsTokenInv(cfg, front, Run(cfg, front), last);
      assert events == front + [last];
    }
  }

  /** However often a refresh is retried, an access token minted by `Refresh` at `t` is never
      accepted at `t + accessLifetime + retryTTL` or later, and one minted by `Login` never at
      `t + accessLifetime` or later.  No assumption on the clock is needed. */
  lemma AccessTokenBound(cfg: Config, events: seq<Timed>, j: nat, i: nat)
    requires cfg.Valid() && j < |events| && i < |events|
    requires events[i].event.AuthenticateEvent?
    requires MintsAccess(cfg, events[j], cfg.hash(events[i].event.token))
    requires forall k :: 0 <= k < |events| && k != j ==> !MintsAccess(cfg, events[k], cfg.hash(events[i].event.token))
    ensures ReplyTo(cfg, events, i).auth.Accepted? ==> events[i].at < LastMoment(cfg, events[j])
  {
    RunKeepsTokenInv(cfg, events[..i]);
    var access, h := Run(cfg, events[..i]).cache.access, cfg.hash(events[i].event.token);
    if h in access {
      assert AccessTraced(cfg, events[..i], h, access[h].deadline);
    }
  }
}
