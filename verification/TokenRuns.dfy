/** Whose session an access token opens, and what a retried refresh returns, over whole runs of the
    service (internal/service/auth/service.go). */
module TokenRuns {
  import opened Core
  import opened Sessions
  import opened Redis
  import opened AuthService
  import opened ServiceRuns

  // ---------------------------------------------------------------------------------------
  // What a step does to the tables
  // ---------------------------------------------------------------------------------------

  /** Sessions keep their owner, and tokens their session, for ever. */
  ghost predicate KeepsOwners(db: Tables, after: Tables) {
    && (forall s :: s in db.sessions ==> s in after.sessions && after.sessions[s].userId == db.sessions[s].userId)
    && (forall h :: h in db.tokens ==> h in after.tokens && after.tokens[h].sessionId == db.tokens[h].sessionId)
  }

  lemma ExtendKeepsOwners(db: Tables, input: ExtendInput, fault: Fault)
    ensures var (after, reply) := ExtendAttempt(db, input, fault);
            && KeepsOwners(db, after) && after.sessions.Keys == db.sessions.Keys
            && (reply.Rotated? || reply.Retry? || reply.Reused? ==>
                  && input.oldHash in db.tokens && db.tokens[input.oldHash].sessionId == reply.identity.sessionId
                  && reply.identity.sessionId in db.sessions
                  && db.sessions[reply.identity.sessionId].userId == reply.identity.userId)
  {
  }

  /** What a step does to the tables: nothing, or the transaction of a login or of a refresh. */
  lemma StepOnTables(cfg: Config, st: State, e: Timed)
    ensures var db := Step(cfg, st, e).0.db;
            match e.event
            case LoginEvent(user, session, Some(mint), fault, _) =>
              db == CreateAttempt(st.db, CreateInputOf(cfg, user, session, mint, e.at), fault).0
            case RefreshEvent(raw, operation, Some(mint), f) =>
              db == ExtendAttempt(st.db, ExtendInputOf(cfg, raw, operation, mint, e.at), f.db).0
            case _ => db == st.db
  {
  }

  lemma CreateKeepsTables(db: Tables, input: CreateInput, fault: Fault)
    ensures var after := CreateAttempt(db, input, fault).0;
            && (forall s :: s in db.sessions ==> s in after.sessions && after.sessions[s] == db.sessions[s])
            && (forall h :: h in db.tokens ==> h in after.tokens && after.tokens[h] == db.tokens[h])
  {
  }

  lemma StepKeepsOwners(cfg: Config, st: State, e: Timed)
    ensures KeepsOwners(st.db, Step(cfg, st, e).0.db)
  {
    StepOnTables(cfg, st, e);
    match e.event
    case LoginEvent(user, session, Some(mint), fault, _) =>
      CreateKeepsTables(st.db, CreateInputOf(cfg, user, session, mint, e.at), fault);
    case RefreshEvent(raw, operation, Some(mint), f) =>
      ExtendKeepsOwners(st.db, ExtendInputOf(cfg, raw, operation, mint, e.at), f.db);
    case _ =>
  }

  // ---------------------------------------------------------------------------------------
  // Owners
  // ---------------------------------------------------------------------------------------

  /** Event `k` opened the session, for this user. */
  predicate Opens(cfg: Config, events: seq<Timed>, k: nat, s: Uuid, user: Uuid)
    requires k < |events|
  {
    && events[k].event.LoginEvent? && events[k].event.sessionId == s && events[k].event.userId == user
    && s !in Run(cfg, events[..k]).db.sessions
    && s in Step(cfg, Run(cfg, events[..k]), events[k]).0.db.sessions
  }

  ghost predicate OpenedFor(cfg: Config, events: seq<Timed>, s: Uuid, user: Uuid) {
    exists k :: 0 <= k < |events| && Opens(cfg, events, k, s, user)
  }

  /** Event `e` minted the access token with hash `h`, for a session of this identity. */
  predicate Vouches(cfg: Config, db: Tables, e: Timed, h: Hash, identity: Identity) {
    && MintsAccess(cfg, e, h)
    && (e.event.LoginEvent? ==> identity == Identity(e.event.userId, e.event.sessionId))
    && (e.event.RefreshEvent? ==>
          && cfg.hash(e.event.raw) in db.tokens
          && db.tokens[cfg.hash(e.event.raw)].sessionId == identity.sessionId)
  }

  ghost predicate Vouched(cfg: Config, events: seq<Timed>, db: Tables, h: Hash, identity: Identity) {
    exists j :: 0 <= j < |events| && Vouches(cfg, db, events[j], h, identity)
  }

  predicate MintsResult(cfg: Config, e: Timed, r: Hash, pair: TokenPair) {
    e.event.RefreshEvent? && e.event.mint.Some? && cfg.hash(e.event.raw) == r && e.event.mint.value.Pair() == pair
  }

  ghost predicate ResultMinted(cfg: Config, events: seq<Timed>, r: Hash, pair: TokenPair) {
    exists j :: 0 <= j < |events| && MintsResult(cfg, events[j], r, pair)
  }

  ghost predicate AccessOwned(cfg: Config, events: seq<Timed>, st: State, h: Hash)
    requires h in st.cache.access
  {
    var identity := st.cache.access[h].value;
    && identity.sessionId in st.db.sessions && st.db.sessions[identity.sessionId].userId == identity.userId
    && Vouched(cfg, events, st.db, h, identity)
  }

  ghost predicate OwnerInv(cfg: Config, events: seq<Timed>, st: State) {
    && (forall s :: s in st.db.sessions ==> OpenedFor(cfg, events, s, st.db.sessions[s].userId))
    && (forall h :: h in st.cache.access ==> AccessOwned(cfg, events, st, h))
    && (forall r :: r in st.cache.results ==> ResultMinted(cfg, events, r, st.cache.results[r].value))
  }

  lemma OpenedForLonger(cfg: Config, events: seq<Timed>, e: Timed, s: Uuid, user: Uuid)
    requires OpenedFor(cfg, events, s, user)
    ensures OpenedFor(cfg, events + [e], s, user)
  {
    var k :| 0 <= k < |events| && Opens(cfg, events, k, s, user);
    assert (events + [e])[..k] == events[..k] && (events + [e])[k] == events[k];
    assert Opens(cfg, events + [e], k, s, user);
  }

  lemma VouchedLonger(cfg: Config, events: seq<Timed>, e: Timed, db: Tables, after: Tables, h: Hash, identity: Identity)
    requires Vouched(cfg, events, db, h, identity) && KeepsOwners(db, after)
    ensures Vouched(cfg, events + [e], after, h, identity)
  {
    var j :| 0 <= j < |events| && Vouches(cfg, db, events[j], h, identity);
    assert (events + [e])[j] == events[j] && Vouches(cfg, after, (events + [e])[j], h, identity);
  }

  lemma ResultMintedLonger(cfg: Config, events: seq<Timed>, e: Timed, r: Hash, pair: TokenPair)
    requires ResultMinted(cfg, events, r, pair)
    ensures ResultMinted(cfg, events + [e], r, pair)
  {
    var j :| 0 <= j < |events| && MintsResult(cfg, events[j], r, pair);
    assert (events + [e])[j] == events[j];
  }

  lemma SessionsStayOwned(cfg: Config, events: seq<Timed>, e: Timed)
    requires OwnerInv(cfg, events, Run(cfg, events))
    ensures var db := Step(cfg, Run(cfg, events), e).0.db;
            forall s :: s in db.sessions ==> OpenedFor(cfg, events + [e], s, db.sessions[s].userId)
  {
    var st := Run(cfg, events);
    var db := Step(cfg, st, e).0.db;
    StepKeepsOwners(cfg, st, e);
    forall s | s in db.sessions ensures OpenedFor(cfg, events + [e], s, db.sessions[s].userId) {
      if s in st.db.sessions {
        OpenedForLonger(cfg, events, e, s, db.sessions[s].userId);
      } else {
        NewSessionIsLogin(cfg, st, e, s);
        assert (events + [e])[..|events|] == events && (events + [e])[|events|] == e;
        assert Opens(cfg, events + [e], |events|, s, db.sessions[s].userId);
      }
    }
  }

  lemma NewSessionIsLogin(cfg: Config, st: State, e: Timed, s: Uuid)
    requires s in Step(cfg, st, e).0.db.sessions && s !in st.db.sessions
    ensures e.event.LoginEvent? && e.event.sessionId == s
    ensures Step(cfg, st, e).0.db.sessions[s].userId == e.event.userId
  {
    if e.event.RefreshEvent? && e.event.mint.Some? {
      ExtendKeepsOwners(st.db, ExtendInputOf(cfg, e.event.raw, e.event.operation, e.event.mint.value, e.at),
                        e.event.refreshFaults.db);
    }
  }

  predicate NewAccess(st: State, after: State, h: Hash) {
    h in after.cache.access && (h !in st.cache.access || after.cache.access[h] != st.cache.access[h])
  }

  lemma LoginWritesAccess(cfg: Config, st: State, e: Timed, h: Hash)
    requires e.event.LoginEvent? && NewAccess(st, Step(cfg, st, e).0, h)
    ensures var after := Step(cfg, st, e).0;
            var identity := after.cache.access[h].value;
            && identity.sessionId in after.db.sessions
            && after.db.sessions[identity.sessionId].userId == identity.userId
            && Vouches(cfg, after.db, e, h, identity)
  {
  }

  lemma RefreshWritesAccess(cfg: Config, st: State, e: Timed, h: Hash)
    requires e.event.RefreshEvent? && NewAccess(st, Step(cfg, st, e).0, h)
    ensures var r, identity := cfg.hash(e.event.raw), Step(cfg, st, e).0.cache.access[h].value;
            && r in st.db.tokens && st.db.tokens[r].sessionId == identity.sessionId
            && identity.sessionId in st.db.sessions && st.db.sessions[identity.sessionId].userId == identity.userId
            && (MintsAccess(cfg, e, h) || (r in st.cache.results && cfg.hash(st.cache.results[r].value.access) == h))
  {
    ExtendKeepsOwners(st.db, ExtendInputOf(cfg, e.event.raw, e.event.operation, e.event.mint.value, e.at),
                      e.event.refreshFaults.db);
  }

  lemma MintedIsVouched(cfg: Config, events: seq<Timed>, e: Timed, db: Tables, h: Hash, identity: Identity)
    requires Vouches(cfg, db, e, h, identity)
    ensures Vouched(cfg, events + [e], db, h, identity)
  {
    assert (events + [e])[|events|] == e;
  }

  lemma RenewedIsVouched(
      cfg: Config, events: seq<Timed>, e: Timed, db: Tables, r: Hash, pair: TokenPair, identity: Identity)
    requires ResultMinted(cfg, events, r, pair) && r in db.tokens && db.tokens[r].sessionId == identity.sessionId
    ensures Vouched(cfg, events + [e], db, cfg.hash(pair.access), identity)
  {
    var j :| 0 <= j < |events| && MintsResult(cfg, events[j], r, pair);
    assert (events + [e])[j] == events[j] && Vouches(cfg, db, (events + [e])[j], cfg.hash(pair.access), identity);
  }

  /** A new access entry names the session and the owner that the tables give, and goes back to its
      mint. */
  lemma NewAccessIsOwned(cfg: Config, events: seq<Timed>, st: State, e: Timed, h: Hash)
    requires forall r :: r in st.cache.results ==> ResultMinted(cfg, events, r, st.cache.results[r].value)
    requires NewAccess(st, Step(cfg, st, e).0, h)
    ensures AccessOwned(cfg, events + [e], Step(cfg, st, e).0, h)
  {
    var db, identity := Step(cfg, st, e).0.db, Step(cfg, st, e).0.cache.access[h].value;
    if e.event.LoginEvent? {
      LoginWritesAccess(cfg, st, e, h);
      MintedIsVouched(cfg, events, e, db, h, identity);
    } else {
      RefreshWritesAccess(cfg, st, e, h);
      StepKeepsOwners(cfg, st, e);
      if MintsAccess(cfg, e, h) {
        MintedIsVouched(cfg, events, e, db, h, identity);
      } else {
        RenewedIsVouched(cfg, events, e, db, cfg.hash(e.event.raw), st.cache.results[cfg.hash(e.event.raw)].value, identity);
      }
    }
  }

  lemma NewResultIsMinted(cfg: Config, st: State, e: Timed, r: Hash)
    requires r in Step(cfg, st, e).0.cache.results
    requires r !in st.cache.results || Step(cfg, st, e).0.cache.results[r] != st.cache.results[r]
    ensures MintsResult(cfg, e, r, Step(cfg, st, e).0.cache.results[r].value)
  {
  }

  lemma StepKeepsOwnerInv(cfg: Config, events: seq<Timed>, e: Timed)
    requires OwnerInv(cfg, events, Run(cfg, events))
    ensures OwnerInv(cfg, events + [e], Step(cfg, Run(cfg, events), e).0)
  {
    var st, after := Run(cfg, events), Step(cfg, Run(cfg, events), e).0;
    SessionsStayOwned(cfg, events, e);
    forall h | h in after.cache.access ensures AccessOwned(cfg, events + [e], after, h) {
      if NewAccess(st, after, h) {
        NewAccessIsOwned(cfg, events, st, e, h);
      } else {
        assert AccessOwned(cfg, events, st, h);
        StepKeepsOwners(cfg, st, e);
        VouchedLonger(cfg, events, e, st.db, after.db, h, st.cache.access[h].value);
      }
    }
    forall r | r in after.cache.results ensures ResultMinted(cfg, events + [e], r, after.cache.results[r].value) {
      if r in st.cache.results && after.cache.results[r] == st.cache.results[r] {
        ResultMintedLonger(cfg, events, e, r, st.cache.results[r].value);
      } else {
        NewResultIsMinted(cfg, st, e, r);
        assert (events + [e])[|events|] == e;
      }
    }
  }

  lemma {:induction false} RunKeepsOwnerInv(cfg: Config, events: seq<Timed>)
    ensures OwnerInv(cfg, events, Run(cfg, events))
  {
    if events != [] {
      var front, last := events[..|events| - 1], events[|events| - 1];
      RunKeepsOwnerInv(cfg, front);
      StepKeepsOwnerInv(cfg, front, last);
      assert events == front + [last];
    }
  }

  /** Whoever an access token is accepted for is the user who opened that session by logging in; the
      session is the one for which that very token was minted; and the owner of a session never
      changes. */
  lemma {:induction false} AcceptedNamesOwner(cfg: Config, events: seq<Timed>, i: nat)
    requires i < |events| && events[i].event.AuthenticateEvent? && ReplyTo(cfg, events, i).auth.Accepted?
    ensures var identity, st := ReplyTo(cfg, events, i).auth.identity, Run(cfg, events[..i]);
            && identity.sessionId in st.db.sessions && st.db.sessions[identity.sessionId].userId == identity.userId
            && OpenedFor(cfg, events[..i], identity.sessionId, identity.userId)
            && Vouched(cfg, events[..i], st.db, cfg.hash(events[i].event.token), identity)
  {
    RunKeepsOwnerInv(cfg, events[..i]);
    assert AccessOwned(cfg, events[..i], Run(cfg, events[..i]), cfg.hash(events[i].event.token));
  }

  /** A session has one opening and one owner. */
  lemma {:induction false} OneOwner(cfg: Config, events: seq<Timed>, s: Uuid, k: nat, user: Uuid, l: nat, other: Uuid)
    requires k < |events| && l < |events| && Opens(cfg, events, k, s, user) && Opens(cfg, events, l, s, other)
    ensures k == l && user == other
  {
    if k < l {
      StaysOpen(cfg, events, k + 1, l, s);
    } else if l < k {
      StaysOpen(cfg, events, l + 1, k, s);
    }
  }

  lemma {:induction false} StaysOpen(cfg: Config, events: seq<Timed>, k: nat, l: nat, s: Uuid)
    requires 0 < k <= l <= |events| && s in Step(cfg, Run(cfg, events[..k - 1]), events[k - 1]).0.db.sessions
    ensures s in Run(cfg, events[..l]).db.sessions
  {
    assert events[..l][..l - 1] == events[..l - 1];
    if k < l {
      StaysOpen(cfg, events, k, l - 1, s);
      StepKeepsOwners(cfg, Run(cfg, events[..l - 1]), events[l - 1]);
    }
  }

  // ---------------------------------------------------------------------------------------
  // Retries
  // ---------------------------------------------------------------------------------------

  /** Refresh event `i` was answered with this pair. */
  predicate Answered(cfg: Config, events: seq<Timed>, i: nat, pair: TokenPair)
    requires i < |events|
  {
    events[i].event.RefreshEvent? && ReplyTo(cfg, events, i) == RefreshReplied(Issued(pair))
  }

  /** The presented token was used by this operation and has the pair's refresh token behind it, and
      the stored result, if there still is one, is this pair. */
  ghost predicate Settled(cfg: Config, st: State, raw: string, operation: Uuid, pair: TokenPair) {
    var used, next := cfg.hash(raw), cfg.hash(pair.refresh);
    && used in st.db.tokens && next in st.db.tokens
    && st.db.tokens[used].requestId == Some(operation)
    && st.db.tokens[used].usedAt == Some(st.db.tokens[next].createdAt)
    && st.db.tokens[used].sessionId == st.db.tokens[next].sessionId
    && (used in st.cache.results ==> st.cache.results[used].value == pair)
  }

  /** A stored result belongs to a used token and names its successor. */
  ghost predicate ResultKnown(cfg: Config, st: State, r: Hash)
    requires r in st.cache.results
  {
    var next := cfg.hash(st.cache.results[r].value.refresh);
    && r in st.db.tokens && next in st.db.tokens
    && st.db.tokens[r].usedAt == Some(st.db.tokens[next].createdAt)
    && st.db.tokens[r].sessionId == st.db.tokens[next].sessionId
  }

  ghost predicate RetryInv(cfg: Config, events: seq<Timed>, st: State) {
    && (forall r :: r in st.cache.results ==> ResultKnown(cfg, st, r))
    && (forall i, pair :: 0 <= i < |events| && Answered(cfg, events, i, pair) ==>
          Settled(cfg, st, events[i].event.raw, events[i].event.operation, pair))
  }

  /** Used tokens do not change, tokens keep their session and creation time, and a result changes
      only when its token is used. */
  ghost predicate KeepsUses(st: State, after: State) {
    && (forall h :: h in st.db.tokens ==>
          && h in after.db.tokens && after.db.tokens[h].sessionId == st.db.tokens[h].sessionId
          && after.db.tokens[h].createdAt == st.db.tokens[h].createdAt
          && (st.db.tokens[h].usedAt.Some? ==> after.db.tokens[h] == st.db.tokens[h]))
    && (forall h :: h in after.cache.results && h in st.db.tokens && st.db.tokens[h].usedAt.Some? ==>
          h in st.cache.results && after.cache.results[h] == st.cache.results[h])
  }

  lemma ExtendKeepsUses(db: Tables, input: ExtendInput, fault: Fault)
    ensures var (after, reply) := ExtendAttempt(db, input, fault);
            && (forall h :: h in db.tokens ==>
                  && h in after.tokens && after.tokens[h].sessionId == db.tokens[h].sessionId
                  && after.tokens[h].createdAt == db.tokens[h].createdAt
                  && (db.tokens[h].usedAt.Some? ==> after.tokens[h] == db.tokens[h]))
            && (reply.Rotated? ==>
                  && input.oldHash in db.tokens && db.tokens[input.oldHash].usedAt.None?
                  && input.oldHash in after.tokens && input.token.hash in after.tokens
                  && after.tokens[input.oldHash].usedAt == Some(after.tokens[input.token.hash].createdAt)
                  && after.tokens[input.oldHash].requestId == Some(input.operation)
                  && after.tokens[input.oldHash].sessionId == after.tokens[input.token.hash].sessionId)
            && (reply.Retry? ==>
                  && after == db && input.oldHash in db.tokens && db.tokens[input.oldHash].usedAt.Some?
                  && db.tokens[input.oldHash].requestId == Some(input.operation))
  {
  }

  lemma UsedResultStays(cfg: Config, st: State, e: Timed, h: Hash)
    requires h in Step(cfg, st, e).0.cache.results && h in st.db.tokens && st.db.tokens[h].usedAt.Some?
    ensures h in st.cache.results && Step(cfg, st, e).0.cache.results[h] == st.cache.results[h]
  {
  }

  lemma StepKeepsUses(cfg: Config, st: State, e: Timed)
    ensures KeepsUses(st, Step(cfg, st, e).0)
  {
    StepOnTables(cfg, st, e);
    match e.event
    case LoginEvent(user, session, Some(mint), fault, _) =>
      CreateKeepsTables(st.db, CreateInputOf(cfg, user, session, mint, e.at), fault);
    case RefreshEvent(raw, operation, Some(mint), f) =>
      ExtendKeepsUses(st.db, ExtendInputOf(cfg, raw, operation, mint, e.at), f.db);
    case _ =>
    forall h | h in Step(cfg, st, e).0.cache.results && h in st.db.tokens && st.db.tokens[h].usedAt.Some?
      ensures h in st.cache.results && Step(cfg, st, e).0.cache.results[h] == st.cache.results[h]
    {
      UsedResultStays(cfg, st, e, h);
    }
  }

  lemma SettledForGood(cfg: Config, st: State, after: State, raw: string, operation: Uuid, pair: TokenPair)
    requires Settled(cfg, st, raw, operation, pair) && KeepsUses(st, after)
    ensures Settled(cfg, after, raw, operation, pair)
  {
  }

  /** What a refresh that is answered with a pair leaves behind. */
  lemma AnswerSettles(cfg: Config, st: State, e: Timed, pair: TokenPair)
    requires e.event.RefreshEvent? && Step(cfg, st, e).1 == RefreshReplied(Issued(pair))
    requires forall r :: r in st.cache.results ==> ResultKnown(cfg, st, r)
    ensures Settled(cfg, Step(cfg, st, e).0, e.event.raw, e.event.operation, pair)
  {
    ExtendKeepsUses(st.db, ExtendInputOf(cfg, e.event.raw, e.event.operation, e.event.mint.value, e.at),
                    e.event.refreshFaults.db);
    assert cfg.hash(e.event.raw) in st.cache.results ==> ResultKnown(cfg, st, cfg.hash(e.event.raw));
  }

  lemma ResultsStayKnown(cfg: Config, st: State, e: Timed)
    requires forall r :: r in st.cache.results ==> ResultKnown(cfg, st, r)
    ensures var after := Step(cfg, st, e).0; forall r :: r in after.cache.results ==> ResultKnown(cfg, after, r)
  {
    var after := Step(cfg, st, e).0;
    StepKeepsUses(cfg, st, e);
    forall r | r in after.cache.results ensures ResultKnown(cfg, after, r) {
      if r in st.cache.results && after.cache.results[r] == st.cache.results[r] {
        assert ResultKnown(cfg, st, r);
      } else {
        ExtendKeepsUses(st.db, ExtendInputOf(cfg, e.event.raw, e.event.operation, e.event.mint.value, e.at),
                        e.event.refreshFaults.db);
      }
    }
  }

  lemma StepKeepsRetryInv(cfg: Config, events: seq<Timed>, e: Timed)
    requires RetryInv(cfg, events, Run(cfg, events))
    ensures RetryInv(cfg, events + [e], Step(cfg, Run(cfg, events), e).0)
  {
    var st, longer := Run(cfg, events), events + [e];
    var after := Step(cfg, st, e).0;
    StepKeepsUses(cfg, st, e);
    ResultsStayKnown(cfg, st, e);
    forall i, pair | 0 <= i < |longer| && Answered(cfg, longer, i, pair)
      ensures Settled(cfg, after, longer[i].event.raw, longer[i].event.operation, pair)
    {
      if i < |events| {
        assert longer[..i] == events[..i] && longer[i] == events[i] && Answered(cfg, events, i, pair);
        SettledForGood(cfg, st, after, events[i].event.raw, events[i].event.operation, pair);
      } else {
        assert longer[..i] == events && longer[i] == e;
        AnswerSettles(cfg, st, e, pair);
      }
    }
  }

  lemma {:induction false} RunKeepsRetryInv(cfg: Config, events: seq<Timed>)
    ensures RetryInv(cfg, events, Run(cfg, events))
  {
    if events != [] {
      var front, last := events[..|events| - 1], events[|events| - 1];
      RunKeepsRetryInv(cfg, front);
      StepKeepsRetryInv(cfg, front, last);
      assert events == front + [last];
    }
  }

  /** Over every run, whatever is lost, evicted or stamped, all refreshes that presented one token and
      were answered with a pair carried one operation and got one pair, whose refresh token is the
      presented one's successor in its session. */
  lemma {:induction false} OneTokenOnePair(cfg: Config, events: seq<Timed>, i: nat, p: TokenPair, j: nat, q: TokenPair)
    requires i < j < |events| && Answered(cfg, events, i, p) && Answered(cfg, events, j, q)
    requires events[i].event.raw == events[j].event.raw
    ensures events[i].event.operation == events[j].event.operation && p == q
    ensures Settled(cfg, Run(cfg, events), events[i].event.raw, events[i].event.operation, p)
  {
    RunKeepsRetryInv(cfg, events);
    RunKeepsRetryInv(cfg, events[..j]);
    var st, e := Run(cfg, events[..j]), events[j];
    assert events[..j][..i] == events[..i] && events[..j][i] == events[i];
    assert Answered(cfg, events[..j], i, p);
    assert Settled(cfg, st, e.event.raw, events[i].event.operation, p);
    ExtendKeepsUses(st.db, ExtendInputOf(cfg, e.event.raw, e.event.operation, e.event.mint.value, e.at),
                    e.event.refreshFaults.db);
  }

  /** Event `e` does not evict the result stored under `r`. */
  predicate Spares(e: Timed, r: Hash) {
    e.event.EvictEvent? ==> r !in e.event.results
  }

  lemma SparedResultStays(cfg: Config, st: State, e: Timed, r: Hash)
    requires r in st.cache.results && r in st.db.tokens && st.db.tokens[r].usedAt.Some? && Spares(e, r)
    ensures var after := Step(cfg, st, e).0;
            r in after.cache.results && after.cache.results[r] == st.cache.results[r]
  {
  }

  lemma {:induction false} ResultStays(cfg: Config, events: seq<Timed>, i: nat, k: nat, r: Hash)
    requires i <= k <= |events| && forall l :: i <= l < k ==> Spares(events[l], r)
    requires var st := Run(cfg, events[..i]);
             r in st.cache.results && r in st.db.tokens && st.db.tokens[r].usedAt.Some?
    ensures var st, late := Run(cfg, events[..i]), Run(cfg, events[..k]);
            && r in late.cache.results && late.cache.results[r] == st.cache.results[r]
            && r in late.db.tokens && late.db.tokens[r] == st.db.tokens[r]
  {
    if i < k {
      ResultStays(cfg, events, i, k - 1, r);
      assert events[..k][..k - 1] == events[..k - 1];
      SparedResultStays(cfg, Run(cfg, events[..k - 1]), events[k - 1], r);
      StepKeepsUses(cfg, Run(cfg, events[..k - 1]), events[k - 1]);
    }
  }

  /** The presented token belongs to a session that is active at this time. */
  predicate Presentable(cfg: Config, st: State, raw: string, now: Time) {
    && cfg.hash(raw) in st.db.tokens
    && st.db.tokens[cfg.hash(raw)].sessionId in st.db.sessions
    && Active(st.db.sessions[st.db.tokens[cfg.hash(raw)].sessionId], now)
  }

  /** Presenting the unused token of an active session, with fresh tokens and no failure, gives the
      minted pair; its refresh token is in the session's place, and all three stores know it. */
  lemma RotationTakesEffect(cfg: Config, st: State, e: Timed)
    requires e.event.RefreshEvent? && e.event.mint.Some? && e.event.refreshFaults == NO_FAULTS
    requires Presentable(cfg, st, e.event.raw, e.at) && st.db.tokens[cfg.hash(e.event.raw)].usedAt.None?
    requires var mint := e.event.mint.value;
             Insertable(st.db.tokens, NewToken(mint.tokenId, cfg.hash(mint.refresh), e.at))
    ensures var mint, r := e.event.mint.value, cfg.hash(e.event.raw);
            var s := st.db.tokens[r].sessionId;
            var (after, reply) := Step(cfg, st, e);
            && reply == RefreshReplied(Issued(TokenPair(mint.access, mint.refresh)))
            && after.db.tokens == st.db.tokens
                 [r := st.db.tokens[r].(usedAt := Some(e.at), requestId := Some(e.event.operation))]
                 [cfg.hash(mint.refresh) := TokenRow(mint.tokenId, s, e.at, None, None)]
            && after.db.sessions == st.db.sessions[s := st.db.sessions[s].(expiresAt := e.at + cfg.sessionTimeout)]
            && after.cache == Cache(
                 st.cache.access[cfg.hash(mint.access) :=
                   Entry(Identity(st.db.sessions[s].userId, s), e.at + cfg.accessLifetime)],
                 st.cache.results[r := Entry(TokenPair(mint.access, mint.refresh), e.at + cfg.retryTTL)],
                 st.cache.sessions[s := Entry(true, e.at + cfg.sessionTimeout)])
  {
  }

  /** Presenting a token that another operation used, without failure, revokes its session now and
      leaves an inactive mark; nothing else changes. */
  lemma ReuseTakesEffect(cfg: Config, st: State, e: Timed)
    requires e.event.RefreshEvent? && e.event.mint.Some? && e.event.refreshFaults == NO_FAULTS
    requires Presentable(cfg, st, e.event.raw, e.at) && st.db.tokens[cfg.hash(e.event.raw)].usedAt.Some?
    requires st.db.tokens[cfg.hash(e.event.raw)].requestId != Some(e.event.operation)
    ensures var s := st.db.tokens[cfg.hash(e.event.raw)].sessionId;
            var (after, reply) := Step(cfg, st, e);
            && reply == RefreshReplied(ReuseDetected)
            && after.db.tokens == st.db.tokens
            && after.db.sessions == st.db.sessions[s := st.db.sessions[s].(revokedAt := Some(e.at))]
            && after.cache == st.cache.(
                 sessions := st.cache.sessions[s := Entry(false, e.at + cfg.sessionTimeout)])
  {
  }

  /** A retry of the operation that used the token gives the stored pair and renews its access token
      for the session and its owner; the tables and the stored result stay as they are. */
  lemma RetryTakesEffect(cfg: Config, st: State, e: Timed)
    requires e.event.RefreshEvent? && e.event.mint.Some? && e.event.refreshFaults == NO_FAULTS
    requires Presentable(cfg, st, e.event.raw, e.at) && st.db.tokens[cfg.hash(e.event.raw)].usedAt.Some?
    requires st.db.tokens[cfg.hash(e.event.raw)].requestId == Some(e.event.operation)
    ensures var r := cfg.hash(e.event.raw);
            var s := st.db.tokens[r].sessionId;
            var (after, reply) := Step(cfg, st, e);
            && after.db == st.db
            && if r in st.cache.results && e.at < st.cache.results[r].deadline then
                 var pair := st.cache.results[r].value;
                 && reply == RefreshReplied(Issued(pair))
                 && after.cache == st.cache.(access := st.cache.access[cfg.hash(pair.access) :=
                      Entry(Identity(st.db.sessions[s].userId, s), e.at + cfg.accessLifetime)])
               else
                 reply == RefreshReplied(RetryUnavailable) && after.cache == st.cache
  {
  }

  /** A refresh that rotated at `i` and stored its result gives any retry of the operation its pair
      again: as long as the result is not evicted, before `retryTTL` has passed, whatever else
      happened meanwhile, while the session is active. */
  lemma {:induction false} RetryGivesFirstPair(cfg: Config, events: seq<Timed>, i: nat, pair: TokenPair, j: nat)
    requires i < j < |events| && Answered(cfg, events, i, pair) && events[i].event.refreshFaults.resultCached
    requires var r := cfg.hash(events[i].event.raw);
             && r in Run(cfg, events[..i]).db.tokens && Run(cfg, events[..i]).db.tokens[r].usedAt.None?
             && forall l :: i < l < j ==> Spares(events[l], r)
    requires var e := events[j];
             && e.event.RefreshEvent? && e.event.raw == events[i].event.raw
             && e.event.operation == events[i].event.operation && e.event.mint.Some?
             && e.event.refreshFaults.db == Healthy && !e.event.refreshFaults.resultFails
             && e.at < events[i].at + cfg.retryTTL && Presentable(cfg, Run(cfg, events[..j]), e.event.raw, e.at)
    ensures Answered(cfg, events, j, pair)
  {
    var r := cfg.hash(events[i].event.raw);
    assert events[..i + 1][..i] == events[..i];
    RunKeepsRetryInv(cfg, events[..i]);
    AnswerSettles(cfg, Run(cfg, events[..i]), events[i], pair);
    RotationStored(cfg, Run(cfg, events[..i]), events[i], pair);
    ResultStays(cfg, events, i + 1, j, r);
  }

  lemma RotationStored(cfg: Config, st: State, e: Timed, pair: TokenPair)
    requires e.event.RefreshEvent? && Step(cfg, st, e).1 == RefreshReplied(Issued(pair))
    requires e.event.refreshFaults.resultCached
    requires cfg.hash(e.event.raw) in st.db.tokens && st.db.tokens[cfg.hash(e.event.raw)].usedAt.None?
    ensures cfg.hash(e.event.raw) in Step(cfg, st, e).0.cache.results
    ensures Step(cfg, st, e).0.cache.results[cfg.hash(e.event.raw)] == Entry(pair, e.at + cfg.retryTTL)
  {
  }

  /** The refusals: without fresh random bytes nothing happens; an unknown token and an inactive session
      are told apart, and change nothing; a stored result that cannot be read is an error. */
  lemma RefreshRefusals(cfg: Config, st: State, e: Timed)
    requires e.event.RefreshEvent?
    ensures var (after, reply) := Step(cfg, st, e);
            var r := cfg.hash(e.event.raw);
            && (e.event.mint.None? ==> reply == RefreshReplied(RefreshFailed) && after == st)
            && (e.event.mint.Some? && e.event.refreshFaults.db == Healthy ==>
                  && (r !in st.db.tokens <==> reply == RefreshReplied(Refused(TokenNotFound)))
                  && (r in st.db.tokens && st.db.tokens[r].sessionId in st.db.sessions
                      && !Active(st.db.sessions[st.db.tokens[r].sessionId], e.at) <==>
                        reply == RefreshReplied(Refused(SessionInactive)))
                  && (Presentable(cfg, st, e.event.raw, e.at) && st.db.tokens[r].usedAt.Some?
                      && st.db.tokens[r].requestId == Some(e.event.operation) && e.event.refreshFaults.resultFails ==>
                        reply == RefreshReplied(RefreshFailed)))
            && (reply.refresh.Refused? || reply.refresh.RefreshFailed? ==> after.cache == st.cache)
  {
  }

  // ---------------------------------------------------------------------------------------
  // Login and Authenticate
  // ---------------------------------------------------------------------------------------

  /** A login that succeeds returns its minted pair: the refresh token is the one unused token of a
      session of that user, and the access token, if it was stored, is accepted for that user and
      session until it or the session lapses. */
  lemma LoginTakesEffect(cfg: Config, st: State, e: Timed, pair: TokenPair, now: Time, f: AuthFaults)
    requires e.event.LoginEvent? && Step(cfg, st, e).1 == LoginReply(Some(pair))
    ensures var mint, after := e.event.mint.value, Step(cfg, st, e).0;
            && pair == TokenPair(mint.access, mint.refresh)
            && e.event.sessionId !in st.db.sessions && cfg.hash(pair.refresh) !in st.db.tokens
            && after.db.sessions == st.db.sessions[e.event.sessionId :=
                 SessionRow(e.event.userId, e.at, e.at + cfg.sessionTimeout, None)]
            && after.db.tokens == st.db.tokens[cfg.hash(pair.refresh) :=
                 TokenRow(mint.tokenId, e.event.sessionId, e.at, None, None)]
            && (e.event.accessCached && now < e.at + cfg.accessLifetime && now < e.at + cfg.sessionTimeout
                && !f.accessFails && !f.dbFails ==>
                  AuthenticateDirect(cfg, after, pair.access, now, f)
                    == Accepted(Identity(e.event.userId, e.event.sessionId)))
            && (!e.event.accessCached ==> after.cache == st.cache)
  {
  }

  /** A login fails exactly if a random source, the transaction or its commit does, or an id or a hash
      is taken; then the stores are as before. */
  lemma LoginAnswers(cfg: Config, st: State, e: Timed)
    requires e.event.LoginEvent? && e.event.fault == Healthy
    ensures var (after, reply) := Step(cfg, st, e);
            && (reply == LoginReply(None) <==>
                  || e.event.mint.None? || e.event.sessionId in st.db.sessions
                  || !Insertable(st.db.tokens, NewToken(e.event.mint.value.tokenId,
                                                        cfg.hash(e.event.mint.value.refresh), e.at)))
            && (reply == LoginReply(None) ==> after == st)
  {
  }

  /** What `Authenticate` answers over every run: a token without a live entry is invalid, an error
      means that a read failed, a session is never missing, and an inactive answer is true. */
  lemma {:induction false} AuthenticateAnswers(cfg: Config, events: seq<Timed>, i: nat)
    requires cfg.Valid() && ServiceRuns.Monotone(events) && i < |events| && events[i].event.AuthenticateEvent?
    ensures var st, f := Run(cfg, events[..i]), events[i].event.authFaults;
            var reply, h, now := ReplyTo(cfg, events, i).auth, cfg.hash(events[i].event.token), events[i].at;
            var live := h in st.cache.access && now < st.cache.access[h].deadline;
            && (reply == InvalidToken <==> !f.accessFails && !live)
            && (f.accessFails ==> reply == AuthFailed)
            && (reply == AuthFailed ==> f.accessFails || (live && f.dbFails))
            && reply != NoSession
            && (reply.Accepted? ==> live && reply.identity == st.cache.access[h].value)
            && (reply == Inactive ==>
                  && live && st.cache.access[h].value.sessionId in st.db.sessions
                  && !Active(st.db.sessions[st.cache.access[h].value.sessionId], now))
            && (f.dbFails && (f.sessionFails || st.cache.sessions == map[]) && live ==> reply == AuthFailed)
  {
    PrefixRunInv(cfg, events, i, false);
    var st := Run(cfg, events[..i]);
    var h, now := cfg.hash(events[i].event.token), events[i].at;
    if h in st.cache.access && st.cache.access[h].value.sessionId in st.cache.sessions {
      assert MarkIsTrue(st, st.cache.access[h].value.sessionId, now, false);
    }
  }

  /** A database answer is remembered for as long as it must stay true: an active session until it
      lapses, an inactive one for five minutes. */
  lemma DatabaseAnswerIsRemembered(cfg: Config, st: State, token: string, now: Time, f: AuthFaults, identity: Identity)
    requires !f.accessFails && !f.dbFails && f.cached && cfg.hash(token) in st.cache.access
    requires st.cache.access[cfg.hash(token)].value == identity && now < st.cache.access[cfg.hash(token)].deadline
    requires identity.sessionId in st.db.sessions && (f.sessionFails || identity.sessionId !in st.cache.sessions)
    ensures var row := st.db.sessions[identity.sessionId];
            var active := row.revokedAt.None? && now < row.expiresAt;
            && AuthenticateStep(cfg, st, token, now, f).0 == State(st.db, st.cache.(
                 sessions := st.cache.sessions[identity.sessionId :=
                   Entry(active, if active then row.expiresAt else now + 300_000_000_000)]))
            && AuthenticateStep(cfg, st, token, now, f).1 == (if active then Accepted(identity) else Inactive)
  {
  }
}
