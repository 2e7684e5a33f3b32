/** Login, Refresh and Authenticate over the session tables and the Redis stores
    (internal/service/auth/service.go).  Each call is taken as one instant. */
module AuthService {
  import opened Core
  import opened Codec
  import opened Crypto
  import opened Sessions
  import opened Redis

  datatype Config = Config(hash: string -> Hash, accessLifetime: Time, sessionTimeout: Time, retryTTL: Time)
  {
    ghost predicate Valid() {
      accessLifetime > 0 && sessionTimeout > 0 && retryTTL > 0
    }
  }

  const INACTIVE_TTL: Time := 5 * MINUTE

  datatype State = State(db: Tables, cache: Cache)

  /** What the token generator delivered for one call. */
  datatype Mint = Mint(refresh: string, access: string, tokenId: Uuid) {
    function Pair(): TokenPair {
      TokenPair(access, refresh)
    }
  }

  // ---------------------------------------------------------------------------------------
  // The three calls as steps
  // ---------------------------------------------------------------------------------------

  /** `cached` says whether the write to the session store takes effect. */
  datatype AuthFaults = AuthFaults(accessFails: bool, sessionFails: bool, dbFails: bool, cached: bool)

  datatype AuthReply = Accepted(identity: Identity) | InvalidToken | Inactive | NoSession | AuthFailed

  /** Read the database, remember the answer until it may change. */
  function AskDatabase(st: State, identity: Identity, now: Time, f: AuthFaults): (State, AuthReply) {
    var id := identity.sessionId;
    if f.dbFails then (st, AuthFailed)
    else if id !in st.db.sessions then (st, NoSession)
    else
      var row := st.db.sessions[id];
      var active := Active(row, now);
      var ttl := if active then row.expiresAt - now else INACTIVE_TTL;
      (st.(cache := st.cache.(sessions := Remember(st.cache.sessions, id, active, now + ttl, f.cached))),
       if active then Accepted(identity) else Inactive)
  }

  function AuthenticateStep(cfg: Config, st: State, token: string, now: Time, f: AuthFaults): (State, AuthReply) {
    if f.accessFails then (st, AuthFailed)
    else
      match Read(st.cache.access, cfg.hash(token), now)
      case None => (st, InvalidToken)
      case Some(identity) =>
        match if f.sessionFails then None else Read(st.cache.sessions, identity.sessionId, now)
        case Some(active) => (st, if active then Accepted(identity) else Inactive)
        case None => AskDatabase(st, identity, now, f)
  }

  /** The reference: the same call without the session store. */
  function AuthenticateDirect(cfg: Config, st: State, token: string, now: Time, f: AuthFaults): AuthReply {
    if f.accessFails then AuthFailed
    else
      match Read(st.cache.access, cfg.hash(token), now)
      case None => InvalidToken
      case Some(identity) =>
        if f.dbFails then AuthFailed
        else if identity.sessionId !in st.db.sessions then NoSession
        else if Active(st.db.sessions[identity.sessionId], now) then Accepted(identity)
        else Inactive
  }

  datatype RefreshFaults = RefreshFaults(
    db: Fault, resultFails: bool, resultCached: bool, accessCached: bool, sessionCached: bool)

  datatype RefreshReply =
    | Issued(pair: TokenPair)
    | RetryUnavailable
    | ReuseDetected
    | Refused(reply: ExtendReply)
    | RefreshFailed

  function ExtendInputOf(cfg: Config, raw: string, operation: Uuid, mint: Mint, now: Time): ExtendInput {
    ExtendInput(operation, cfg.hash(raw), NewToken(mint.tokenId, cfg.hash(mint.refresh), now), cfg.sessionTimeout)
  }

  /** What follows the transaction: one answer and the cache writes that go with it. */
  function AfterExtend(
      cfg: Config, cache: Cache, oldHash: Hash, pair: TokenPair, reply: ExtendReply, now: Time, f: RefreshFaults)
      : (Cache, RefreshReply)
  {
    match reply
    case Retry(identity) =>
      if f.resultFails then (cache, RefreshFailed)
      else
        (match Read(cache.results, oldHash, now)
         case None => (cache, RetryUnavailable)
         case Some(stored) =>
           (cache.(access := Remember(
              cache.access, cfg.hash(stored.access), identity, now + cfg.accessLifetime, f.accessCached)),
            Issued(stored)))
    case Reused(identity) =>
      (cache.(sessions := Remember(
         cache.sessions, identity.sessionId, false, now + cfg.sessionTimeout, f.sessionCached)),
       ReuseDetected)
    case Rotated(identity) =>
      (Cache(
         Remember(cache.access, cfg.hash(pair.access), identity, now + cfg.accessLifetime, f.accessCached),
         Remember(cache.results, oldHash, pair, now + cfg.retryTTL, f.resultCached),
         Remember(cache.sessions, identity.sessionId, true, now + cfg.sessionTimeout, f.sessionCached)),
       Issued(pair))
    case _ => (cache, Refused(reply))
  }

  function RefreshStep(
      cfg: Config, st: State, raw: string, operation: Uuid, mint: Option<Mint>, now: Time, f: RefreshFaults)
      : (State, RefreshReply)
  {
    if mint.None? then (st, RefreshFailed)
    else
      var (db, extended) := ExtendAttempt(st.db, ExtendInputOf(cfg, raw, operation, mint.value, now), f.db);
      var (cache, reply) := AfterExtend(cfg, st.cache, cfg.hash(raw), mint.value.Pair(), extended, now, f);
      (State(db, cache), reply)
  }

  function CreateInputOf(cfg: Config, userId: Uuid, sessionId: Uuid, mint: Mint, now: Time): CreateInput {
    CreateInput(sessionId, userId, now, now + cfg.sessionTimeout,
                NewToken(mint.tokenId, cfg.hash(mint.refresh), now))
  }

  /** Login after the credentials were accepted. */
  function LoginStep(
      cfg: Config, st: State, userId: Uuid, sessionId: Uuid, mint: Option<Mint>, now: Time,
      fault: Fault, accessCached: bool)
      : (State, Option<TokenPair>)
  {
    if mint.None? then (st, None)
    else
      var (db, ok) := CreateAttempt(st.db, CreateInputOf(cfg, userId, sessionId, mint.value, now), fault);
      if !ok then (State(db, st.cache), None)
      else
        (State(db, st.cache.(access := Remember(
           st.cache.access, cfg.hash(mint.value.access), Identity(userId, sessionId),
           now + cfg.accessLifetime, accessCached))),
         Some(mint.value.Pair()))
  }

  // ---------------------------------------------------------------------------------------
  // The service
  // ---------------------------------------------------------------------------------------

  function MintOf(refresh: Option<Bytes>, access: Option<Bytes>, tokenId: Uuid): Option<Mint> {
    if refresh.Some? && access.Some? then Some(Mint(Base64(refresh.value), Base64(access.value), tokenId)) else None
  }

  class Service {
    const sessionRepository: SessionRepository
    const cache: Client
    const accessTokenStorage: AccessTokenStorage
    const sessionStorage: SessionStorage
    const refreshResultStorage: RefreshResultStorage
    const tokenGenerator: Generator
    const accessLifetime: Time
    const sessionTimeout: Time
    const retryTTL: Time

    ghost function Cfg(): Config {
      Config(tokenGenerator.hash, accessLifetime, sessionTimeout, retryTTL)
    }

    ghost predicate Valid()
      reads cache
    {
      && cache.Valid() && Cfg().Valid()
      && accessTokenStorage.cache == cache && sessionStorage.cache == cache && refreshResultStorage.cache == cache
    }

    ghost function Now(): State
      reads sessionRepository, cache
    {
      State(sessionRepository.Db(), cache.view)
    }

    constructor (sessionRepository: SessionRepository, cache: Client, tokenGenerator: Generator,
                 accessLifetime: Time, sessionTimeout: Time, retryTTL: Time)
      requires cache.Valid() && accessLifetime > 0 && sessionTimeout > 0 && retryTTL > 0
      ensures Valid() && this.sessionRepository == sessionRepository && this.cache == cache
      ensures Cfg() == Config(tokenGenerator.hash, accessLifetime, sessionTimeout, retryTTL)
    {
      this.sessionRepository, this.cache, this.tokenGenerator := sessionRepository, cache, tokenGenerator;
      this.accessLifetime, this.sessionTimeout, this.retryTTL := accessLifetime, sessionTimeout, retryTTL;
      accessTokenStorage := new AccessTokenStorage(cache);
      sessionStorage := new SessionStorage(cache);
      refreshResultStorage := new RefreshResultStorage(cache);
    }

    method Authenticate(token: string, now: Time, f: AuthFaults) returns (reply: AuthReply)
      requires Valid()
      modifies cache
      ensures Valid()
      ensures (Now(), reply) == AuthenticateStep(Cfg(), old(Now()), token, now, f)
    {
      var found := accessTokenStorage.Get(tokenGenerator.hash(token), now, f.accessFails);
      if !found.Found? {
        return if found.Missing? then InvalidToken else AuthFailed;
      }
      var identity := found.value;
      var isActive := sessionStorage.GetSession(identity.sessionId, now, f.sessionFails);
      if isActive.Found? {
        return if isActive.value then Accepted(identity) else Inactive;
      }
      var state := sessionRepository.GetSessionState(identity.sessionId, f.dbFails);
      if !state.StateFound? {
        return if state.StateMissing? then NoSession else AuthFailed;
      }
      var active := state.row.revokedAt.None? && now < state.row.expiresAt;
      var ttl := INACTIVE_TTL;
      if active {
        ttl := state.row.expiresAt - now;
      }
      sessionStorage.SetSession(identity.sessionId, active, ttl, now, f.cached);
      return if active then Accepted(identity) else Inactive;
    }

    method Refresh(raw: string, operation: Uuid, refreshRandom: Option<Bytes>, accessRandom: Option<Bytes>,
                   tokenId: Uuid, now: Time, f: RefreshFaults)
      returns (reply: RefreshReply)
      requires Valid()
      requires refreshRandom.Some? ==> |refreshRandom.value| == TOKEN_SIZE
      requires accessRandom.Some? ==> |accessRandom.value| == TOKEN_SIZE
      modifies sessionRepository, cache
      ensures Valid()
      ensures (Now(), reply) == RefreshStep(
                Cfg(), old(Now()), raw, operation, MintOf(refreshRandom, accessRandom, tokenId), now, f)
    {
      var oldHash := tokenGenerator.hash(raw);
      var refreshToken := tokenGenerator.Generate(refreshRandom);
      if refreshToken.None? {
        return RefreshFailed;
      }
      var accessToken := tokenGenerator.Generate(accessRandom);
      if accessToken.None? {
        return RefreshFailed;
      }
      var newToken := NewToken(tokenId, refreshToken.value.1, now);
      var extended := sessionRepository.ExtendSession(
        ExtendInput(operation, oldHash, newToken, sessionTimeout), f.db);
      var pair := TokenPair(accessToken.value.0, refreshToken.value.0);
      reply := Answer(oldHash, pair, extended, now, f);
    }

    method Answer(oldHash: Hash, pair: TokenPair, extended: ExtendReply, now: Time, f: RefreshFaults)
      returns (reply: RefreshReply)
      requires Valid()
      modifies cache
      ensures Valid()
      ensures (cache.view, reply) == AfterExtend(Cfg(), old(cache.view), oldHash, pair, extended, now, f)
    {
      match extended
      case Retry(identity) =>
        var stored := refreshResultStorage.Get(oldHash, now, f.resultFails);
        if !stored.Found? {
          return if stored.Missing? then RetryUnavailable else RefreshFailed;
        }
        accessTokenStorage.Store(
          tokenGenerator.hash(stored.value.access), identity, accessLifetime, now, f.accessCached);
        return Issued(stored.value);
      case Reused(identity) =>
        sessionStorage.SetSession(identity.sessionId, false, sessionTimeout, now, f.sessionCached);
        return ReuseDetected;
      case Rotated(identity) =>
        refreshResultStorage.Store(oldHash, pair, retryTTL, now, f.resultCached);
        accessTokenStorage.Store(tokenGenerator.hash(pair.access), identity, accessLifetime, now, f.accessCached);
        sessionStorage.SetSession(identity.sessionId, true, sessionTimeout, now, f.sessionCached);
        return Issued(pair);
      case _ =>
        return Refused(extended);
    }

    method Login(userId: Uuid, sessionId: Uuid, refreshRandom: Option<Bytes>, accessRandom: Option<Bytes>,
                 tokenId: Uuid, now: Time, fault: Fault, accessCached: bool)
      returns (pair: Option<TokenPair>)
      requires Valid()
      requires refreshRandom.Some? ==> |refreshRandom.value| == TOKEN_SIZE
      requires accessRandom.Some? ==> |accessRandom.value| == TOKEN_SIZE
      modifies sessionRepository, cache
      ensures Valid()
      ensures (Now(), pair) == LoginStep(
                Cfg(), old(Now()), userId, sessionId, MintOf(refreshRandom, accessRandom, tokenId), now,
                fault, accessCached)
    {
      var refreshToken := tokenGenerator.Generate(refreshRandom);
      if refreshToken.None? {
        return None;
      }
      var accessToken := tokenGenerator.Generate(accessRandom);
      if accessToken.None? {
        return None;
      }
      pair := Open(
        userId, sessionId, Mint(refreshToken.value.0, accessToken.value.0, tokenId), now, fault, accessCached);
    }

    method Open(userId: Uuid, sessionId: Uuid, mint: Mint, now: Time, fault: Fault, accessCached: bool)
      returns (pair: Option<TokenPair>)
      requires Valid()
      modifies sessionRepository, cache
      ensures Valid()
      ensures (Now(), pair) == LoginStep(
                Cfg(), old(Now()), userId, sessionId, Some(mint), now, fault, accessCached)
    {
      var created := sessionRepository.CreateSession(
        CreateInput(sessionId, userId, now, now + sessionTimeout,
                    NewToken(mint.tokenId, tokenGenerator.hash(mint.refresh), now)),
        fault);
      if !created {
        return None;
      }
      accessTokenStorage.Store(
        tokenGenerator.hash(mint.access), Identity(userId, sessionId), accessLifetime, now, accessCached);
      return Some(mint.Pair());
    }
  }
}
