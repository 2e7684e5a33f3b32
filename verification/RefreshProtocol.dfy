/** Concurrent `Refresh` calls split at their stores: the transaction, then the write or the
    read of the stored result, then the return (internal/service/auth/service.go).  The
    transaction is atomic by `ExtendTransactions.Serialisable`. */
module RefreshProtocol {
  import opened Core
  import opened Sessions
  import opened Redis
  import opened AuthService

  datatype Phase =
    | Started
    | Storing               // rotated; the result is about to be written
    | Leaving               // the write was tried
    | Retrying              // the transaction answered with a retry
    | Returned(reply: RefreshReply)

  datatype Request = Request(raw: string, operation: Uuid, mint: Mint, now: Time, phase: Phase)

  /** `winner` records which call's transaction used a token. */
  datatype World = World(
    db: Tables,
    results: map<Hash, TokenPair>,
    calls: map<nat, Request>,
    winner: map<Hash, nat>)

  datatype Action =
    | Begin(call: nat, raw: string, operation: Uuid, mint: Mint, now: Time)
    | Transact(call: nat, fault: Fault)
    | WriteResult(call: nat, written: bool)
    | ReadResult(call: nat, fails: bool)
    | Return(call: nat)
    | Forget(hashes: set<Hash>)   // expiry or eviction
    | NewSession(create: CreateInput, fault: Fault)

  const INITIAL := World(EMPTY, map[], map[], map[])

  function InPhase(w: World, c: nat, phase: Phase): bool {
    c in w.calls && w.calls[c].phase == phase
  }

  function At(w: World, c: nat, phase: Phase): World
    requires c in w.calls
  {
    w.(calls := w.calls[c := w.calls[c].(phase := phase)])
  }

  function InputOf(cfg: Config, call: Request): ExtendInput {
    ExtendInputOf(cfg, call.raw, call.operation, call.mint, call.now)
  }

  function TransactStep(cfg: Config, w: World, c: nat, fault: Fault): World
    requires c in w.calls
  {
    var call := w.calls[c];
    var h := cfg.hash(call.raw);
    var (db, reply) := ExtendAttempt(w.db, InputOf(cfg, call), fault);
    var phase :=
      match reply
      case Rotated(_) => Storing
      case Retry(_) => Retrying
      case Reused(_) => Returned(ReuseDetected)
      case _ => Returned(Refused(reply));
    var used := h in w.db.tokens && w.db.tokens[h].usedAt.None? && h in db.tokens && db.tokens[h].usedAt.Some?;
    At(w, c, phase).(db := db, winner := if used then w.winner[h := c] else w.winner)
  }

  predicate IsMove(a: Action) {
    a.Begin? || a.WriteResult? || a.ReadResult? || a.Return?
  }

  /** Beginning, writing or reading the stored result, and returning.  A step that does not
      apply changes nothing. */
  function MoveStep(cfg: Config, w: World, a: Action): World
    requires IsMove(a)
  {
    match a
    case Begin(c, raw, operation, mint, now) =>
      if c in w.calls then w else w.(calls := w.calls[c := Request(raw, operation, mint, now, Started)])
    case WriteResult(c, written) =>
      if !InPhase(w, c, Storing) then w
      else
        var h := cfg.hash(w.calls[c].raw);
        At(w, c, Leaving).(results := if written then w.results[h := w.calls[c].mint.Pair()] else w.results)
    case ReadResult(c, fails) =>
      if !InPhase(w, c, Retrying) then w
      else
        var h := cfg.hash(w.calls[c].raw);
        At(w, c, Returned(
          if fails then RefreshFailed
          else if h in w.results then Issued(w.results[h])
          else RetryUnavailable))
    case Return(c) => if InPhase(w, c, Leaving) then At(w, c, Returned(Issued(w.calls[c].mint.Pair()))) else w
  }

  function Next(cfg: Config, w: World, a: Action): World {
    match a
    case Transact(c, fault) => if InPhase(w, c, Started) then TransactStep(cfg, w, c, fault) else w
    case Forget(hashes) => w.(results := w.results - hashes)
    case NewSession(create, fault) => w.(db := CreateAttempt(w.db, create, fault).0)
    case _ => MoveStep(cfg, w, a)
  }

  function Run(cfg: Config, actions: seq<Action>): World {
    if actions == [] then INITIAL
    else Next(cfg, Run(cfg, actions[..|actions| - 1]), actions[|actions| - 1])
  }

  // ---------------------------------------------------------------------------------------
  // One winner for each used token
  // ---------------------------------------------------------------------------------------

  /** The winner of `h` used it for its own operation and put its own new token behind it. */
  ghost predicate Won(cfg: Config, w: World, h: Hash) {
    && h in w.winner && w.winner[h] in w.calls
    && var call := w.calls[w.winner[h]];
       && cfg.hash(call.raw) == h && call.phase != Started
       && h in w.db.tokens && w.db.tokens[h].usedAt == Some(call.now)
       && w.db.tokens[h].requestId == Some(call.operation)
       && cfg.hash(call.mint.refresh) in w.db.tokens
       && w.db.tokens[cfg.hash(call.mint.refresh)].createdAt == call.now
       && w.db.tokens[cfg.hash(call.mint.refresh)].sessionId == w.db.tokens[h].sessionId
  }

  function WinningPair(w: World, h: Hash): TokenPair
    requires h in w.winner && w.winner[h] in w.calls
  {
    w.calls[w.winner[h]].mint.Pair()
  }

  ghost predicate CallInv(cfg: Config, w: World, c: nat)
    requires c in w.calls
  {
    var call, h := w.calls[c], cfg.hash(w.calls[c].raw);
    && (call.phase.Storing? || call.phase.Leaving? ==> h in w.winner && w.winner[h] == c)
    && (call.phase.Retrying? ==> Won(cfg, w, h) && w.db.tokens[h].requestId == Some(call.operation))
    && (call.phase.Returned? && call.phase.reply.Issued? ==>
          && Won(cfg, w, h) && w.db.tokens[h].requestId == Some(call.operation)
          && call.phase.reply.pair == WinningPair(w, h))
  }

  ghost predicate Inv(cfg: Config, w: World) {
    && (forall h :: h in w.winner ==> Won(cfg, w, h))
    && (forall h :: h in w.db.tokens && w.db.tokens[h].usedAt.Some? ==> h in w.winner)
    && (forall h :: h in w.results ==> h in w.winner && Won(cfg, w, h) && w.results[h] == WinningPair(w, h))
    && (forall c :: c in w.calls ==> CallInv(cfg, w, c))
  }

  /** What is used, who used it and what was written for it do not change any more. */
  ghost predicate Keeps(w: World, after: World) {
    && (forall h :: h in w.db.tokens ==>
          && h in after.db.tokens && after.db.tokens[h].createdAt == w.db.tokens[h].createdAt
          && after.db.tokens[h].sessionId == w.db.tokens[h].sessionId
          && (w.db.tokens[h].usedAt.Some? ==> after.db.tokens[h] == w.db.tokens[h]))
    && (forall h :: h in w.winner ==> h in after.winner && after.winner[h] == w.winner[h])
    && (forall c :: c in w.calls ==>
          && c in after.calls && after.calls[c].(phase := Started) == w.calls[c].(phase := Started)
          && (w.calls[c].phase != Started ==> after.calls[c].phase != Started))
  }

  lemma WonStays(cfg: Config, w: World, after: World, h: Hash)
    requires Won(cfg, w, h) && Keeps(w, after)
    ensures Won(cfg, after, h) && WinningPair(after, h) == WinningPair(w, h)
  {
  }

  /** What the transaction of call `c` does to the world. */
  ghost predicate Transacted(cfg: Config, w: World, after: World, c: nat) {
    && InPhase(w, c, Started) && c in after.calls
    && var call, phase, h := w.calls[c], after.calls[c].phase, cfg.hash(w.calls[c].raw);
       && after.calls == w.calls[c := call.(phase := phase)] && phase != Started
       && after.results == w.results
       && (forall g :: g in w.db.tokens && (g != h || w.db.tokens[g].usedAt.Some?) ==>
             g in after.db.tokens && after.db.tokens[g] == w.db.tokens[g])
       && (forall g :: g in after.db.tokens && g !in w.db.tokens ==> after.db.tokens[g].usedAt.None?)
       && (|| (after.winner == w.winner && !phase.Storing? && after.db.tokens == w.db.tokens)
           || (&& after.winner == w.winner[h := c]
               && h in w.db.tokens && w.db.tokens[h].usedAt.None?
               && h in after.db.tokens
               && after.db.tokens[h] == w.db.tokens[h].(
                    usedAt := Some(call.now), requestId := Some(call.operation))
               && cfg.hash(call.mint.refresh) in after.db.tokens
               && after.db.tokens[cfg.hash(call.mint.refresh)].createdAt == call.now
               && after.db.tokens[cfg.hash(call.mint.refresh)].sessionId == w.db.tokens[h].sessionId))
       && (phase.Retrying? ==> h in w.db.tokens && w.db.tokens[h].usedAt.Some?
                               && w.db.tokens[h].requestId == Some(call.operation))
       && !phase.Leaving? && !(phase.Returned? && phase.reply.Issued?)
  }

  lemma TransactEffect(cfg: Config, w: World, c: nat, fault: Fault)
    requires InPhase(w, c, Started)
    ensures Transacted(cfg, w, TransactStep(cfg, w, c, fault), c)
  {
    ExtendOnTokens(w.db, InputOf(cfg, w.calls[c]), fault);
  }

  lemma TransactedKeeps(cfg: Config, w: World, after: World, c: nat)
    requires Inv(cfg, w) && Transacted(cfg, w, after, c)
    ensures Keeps(w, after)
  {
  }

  /** The call whose transaction used the token has won it. */
  lemma TransactedWins(cfg: Config, w: World, after: World, c: nat, h: Hash)
    requires Inv(cfg, w) && Transacted(cfg, w, after, c) && h in after.winner
    ensures Won(cfg, after, h)
  {
    if h in w.winner {
      TransactedKeeps(cfg, w, after, c);
      WonStays(cfg, w, after, h);
    }
  }

  lemma TransactedKeepsInv(cfg: Config, w: World, after: World, c: nat)
    requires Inv(cfg, w) && Transacted(cfg, w, after, c)
    ensures Inv(cfg, after)
  {
    TransactedKeeps(cfg, w, after, c);
    forall h | h in after.winner ensures Won(cfg, after, h) {
      TransactedWins(cfg, w, after, c, h);
    }
    forall h | h in after.results
      ensures h in after.winner && Won(cfg, after, h) && after.results[h] == WinningPair(after, h)
    {
      WonStays(cfg, w, after, h);
    }
    forall d | d in after.calls ensures CallInv(cfg, after, d) {
      if d != c {
        OthersKeepCallInv(cfg, w, after, d);
      }
    }
  }

  /** What is settled stays settled, so a call that did not move keeps its invariant. */
  lemma OthersKeepCallInv(cfg: Config, w: World, after: World, d: nat)
    requires Inv(cfg, w) && Keeps(w, after)
    requires d in w.calls && d in after.calls && after.calls[d] == w.calls[d]
    ensures CallInv(cfg, after, d)
  {
    assert CallInv(cfg, w, d);
    var h := cfg.hash(w.calls[d].raw);
    if Won(cfg, w, h) {
      WonStays(cfg, w, after, h);
    }
  }

  /** Every other step leaves the used tokens and their winners alone and writes only results
      that their winners minted. */
  lemma QuietKeepsInv(cfg: Config, w: World, after: World, c: nat)
    requires Inv(cfg, w) && Keeps(w, after) && after.winner == w.winner
    requires forall h :: h in after.db.tokens && after.db.tokens[h].usedAt.Some? ==>
                           h in w.db.tokens && w.db.tokens[h].usedAt.Some?
    requires forall d :: d in after.calls && d != c ==> d in w.calls && after.calls[d] == w.calls[d]
    requires c in after.calls ==> CallInv(cfg, after, c)
    requires forall h :: h in after.results ==>
               || (h in w.results && after.results[h] == w.results[h])
               || (h in w.winner && after.results[h] == WinningPair(after, h))
    ensures Inv(cfg, after)
  {
    forall h | h in after.winner ensures Won(cfg, after, h) && WinningPair(after, h) == WinningPair(w, h) {
      WonStays(cfg, w, after, h);
    }
    forall d | d in after.calls ensures CallInv(cfg, after, d) {
      if d != c {
        OthersKeepCallInv(cfg, w, after, d);
      }
    }
  }

  lemma MoveKeeps(cfg: Config, w: World, a: Action)
    requires IsMove(a)
    ensures Keeps(w, MoveStep(cfg, w, a))
  {
  }

  /** The call that steps keeps its own invariant. */
  lemma MoverKeepsCallInv(cfg: Config, w: World, a: Action)
    requires Inv(cfg, w) && IsMove(a) && a.call in MoveStep(cfg, w, a).calls
    ensures CallInv(cfg, MoveStep(cfg, w, a), a.call)
  {
    if a.call in w.calls {
      assert CallInv(cfg, w, a.call);
      var h := cfg.hash(w.calls[a.call].raw);
      MoveKeeps(cfg, w, a);
      if Won(cfg, w, h) {
        WonStays(cfg, w, MoveStep(cfg, w, a), h);
      }
    }
  }

  /** A result is written only by the winner of its token. */
  lemma MoveWritesWinningResult(cfg: Config, w: World, a: Action, h: Hash)
    requires Inv(cfg, w) && IsMove(a) && h in MoveStep(cfg, w, a).results
    ensures var results := MoveStep(cfg, w, a).results;
            || (h in w.results && results[h] == w.results[h])
            || (h in w.winner && w.winner[h] in w.calls && results[h] == WinningPair(w, h))
  {
    if a.WriteResult? && InPhase(w, a.call, Storing) {
      assert CallInv(cfg, w, a.call);
    }
  }

  lemma MoveIsQuiet(cfg: Config, w: World, a: Action)
    requires IsMove(a)
    ensures var after := MoveStep(cfg, w, a);
            && after.winner == w.winner && after.db == w.db
            && (forall d :: d in after.calls && d != a.call ==> d in w.calls && after.calls[d] == w.calls[d])
  {
  }

  lemma MoveWritesWinningResults(cfg: Config, w: World, a: Action)
    requires Inv(cfg, w) && IsMove(a)
    ensures var after := MoveStep(cfg, w, a);
            forall h :: h in after.results ==>
              || (h in w.results && after.results[h] == w.results[h])
              || (h in w.winner && w.winner[h] in w.calls && after.results[h] == WinningPair(w, h))
  {
    var after := MoveStep(cfg, w, a);
    forall h | h in after.results
      ensures || (h in w.results && after.results[h] == w.results[h])
              || (h in w.winner && w.winner[h] in w.calls && after.results[h] == WinningPair(w, h))
    {
      MoveWritesWinningResult(cfg, w, a, h);
    }
  }

  lemma MoveKeepsInv(cfg: Config, w: World, a: Action)
    requires Inv(cfg, w) && IsMove(a)
    ensures Inv(cfg, MoveStep(cfg, w, a))
  {
    if MoveStep(cfg, w, a) != w {
      MoverKeepsCallInv(cfg, w, a);
      MoveKeeps(cfg, w, a);
      MoveIsQuiet(cfg, w, a);
      MoveWritesWinningResults(cfg, w, a);
      QuietKeepsInv(cfg, w, MoveStep(cfg, w, a), a.call);
    }
  }

  /** Steps outside every call: forgotten results and new sessions. */
  lemma OutsideKeepsInv(cfg: Config, w: World, after: World)
    requires Inv(cfg, w) && Keeps(w, after) && after.winner == w.winner && after.calls == w.calls
    requires forall h :: h in after.db.tokens && after.db.tokens[h].usedAt.Some? ==>
                           h in w.db.tokens && w.db.tokens[h].usedAt.Some?
    requires forall h :: h in after.results ==> h in w.results && after.results[h] == w.results[h]
    ensures Inv(cfg, after)
  {
    forall c | c in w.calls ensures CallInv(cfg, after, c) {
      OthersKeepCallInv(cfg, w, after, c);
    }
    QuietKeepsInv(cfg, w, after, 0);
  }

  lemma ForgetKeepsInv(cfg: Config, w: World, hashes: set<Hash>)
    requires Inv(cfg, w)
    ensures Inv(cfg, w.(results := w.results - hashes))
  {
  }

  lemma NewSessionKeepsInv(cfg: Config, w: World, create: CreateInput, fault: Fault)
    requires Inv(cfg, w)
    ensures Inv(cfg, w.(db := CreateAttempt(w.db, create, fault).0))
  {
    OutsideKeepsInv(cfg, w, w.(db := CreateAttempt(w.db, create, fault).0));
  }

  lemma NextKeepsInv(cfg: Config, w: World, a: Action)
    requires Inv(cfg, w)
    ensures Inv(cfg, Next(cfg, w, a))
  {
    match a
    case Transact(c, fault) =>
      if InPhase(w, c, Started) {
        TransactEffect(cfg, w, c, fault);
        TransactedKeepsInv(cfg, w, Next(cfg, w, a), c);
      }
    case Forget(hashes) => ForgetKeepsInv(cfg, w, hashes);
    case NewSession(create, fault) => NewSessionKeepsInv(cfg, w, create, fault);
    case _ => MoveKeepsInv(cfg, w, a);
  }

  lemma {:induction false} RunInv(cfg: Config, actions: seq<Action>)
    ensures Inv(cfg, Run(cfg, actions))
  {
    if actions != [] {
      RunInv(cfg, actions[..|actions| - 1]);
      NextKeepsInv(cfg, Run(cfg, actions[..|actions| - 1]), actions[|actions| - 1]);
    }
  }

  /** Over every interleaving of any number of calls, with failures, lost results and evictions
      at any point, all calls that presented the same refresh token and succeeded carried the
      same operation and returned the same pair, whose refresh token is the very successor of
      the presented one in its session's chain. */
  lemma RefreshIsIdempotent(cfg: Config, actions: seq<Action>, c: nat, d: nat)
    requires var w := Run(cfg, actions);
             && c in w.calls && w.calls[c].phase.Returned? && w.calls[c].phase.reply.Issued?
             && d in w.calls && w.calls[d].phase.Returned? && w.calls[d].phase.reply.Issued?
             && w.calls[c].raw == w.calls[d].raw
    ensures var w := Run(cfg, actions);
            var used, next := cfg.hash(w.calls[c].raw), cfg.hash(w.calls[c].phase.reply.pair.refresh);
            && w.calls[c].operation == w.calls[d].operation
            && w.calls[c].phase == w.calls[d].phase
            && used in w.db.tokens && next in w.db.tokens
            && w.db.tokens[used].usedAt == Some(w.db.tokens[next].createdAt)
            && w.db.tokens[used].sessionId == w.db.tokens[next].sessionId
            && w.db.tokens[used].requestId == Some(w.calls[c].operation)
  {
    RunInv(cfg, actions);
    var w := Run(cfg, actions);
    assert CallInv(cfg, w, c) && CallInv(cfg, w, d);
  }
}
