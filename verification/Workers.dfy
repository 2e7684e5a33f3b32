/** Any number of outbox workers over one table and one clock: claim, handle, mark, retry, crash
    (internal/outbox/processor.go, internal/adapter/repository/postgres/outbox_repository.go). */
module Workers {
  import opened Core
  import opened OutboxTable
  import opened Backoff
  import opened Sums

  const LOCK_LEASE: Time := MINUTE
  const MAX_ATTEMPTS := 10

  /** What the handler returned. */
  datatype Result = Succeeded | NonRetryable(error: string) | Retryable(error: string)

  /** The mark that `processOne` makes of a result. */
  function MarkFor(result: Result, attempts: nat, now: Time, draw: Draw): Mark {
    match result
    case Succeeded => Processed(now)
    case NonRetryable(error) => FailedFor(now, error)
    case Retryable(error) =>
      if attempts >= MAX_ATTEMPTS then FailedFor(now, error)
      else RetryAt(now + RetryDelay(attempts, draw), error)
  }

  /** A worker takes the time before it asks.  Once the claim has answered, it starts a work context
      that ends at `deadline`; the time for its mark is taken after the handler returned. */
  datatype Worker =
    | Idle
    | Asking(lockId: Uuid, askedAt: Time)
    | Holding(lockId: Uuid, askedAt: Time, event: Event)
    | Handling(lockId: Uuid, askedAt: Time, event: Event, deadline: Time)
    | Marking(lockId: Uuid, askedAt: Time, event: Event, deadline: Time, result: Result, handledAt: Time)
  {
    predicate Busy() {
      Holding? || Handling? || Marking?
    }
  }

  /** The history of one event: when each claim was asked for, how many claims ended in a retry,
      how many were superseded by another claim, and the backoff scheduled in all. */
  datatype Ledger = Ledger(claims: seq<Time>, retries: nat, superseded: nat, backoff: Time)

  datatype World = World(
    clock: Time,
    rows: Rows,
    workers: map<nat, Worker>,
    usedLocks: set<Uuid>,    // every lock id ever drawn
    marked: set<Uuid>,       // the lock ids under which a mark took effect
    ledgers: map<Uuid, Ledger>)

  datatype Action =
    | Tick(to: Time)
    | Insert(id: Uuid, row: Row)
    | Ask(worker: nat, lockId: Uuid)
    | Claim(worker: nat, id: Uuid, skipped: set<Uuid>)
    | Start(worker: nat)
    | Handle(worker: nat, result: Result)
    | MarkEvent(worker: nat, at: Time, draw: Draw, effective: bool)   // stamped `at`, maybe earlier
    | Leave(worker: nat)     // nothing to do, an error, or a crash

  const EMPTY := World(0, map[], map[], {}, {}, map[])

  predicate Fresh(row: Row) {
    Pending(row) && row.lockedAt.None? && row.lockId.None? && row.attempts == 0
  }

  function WorkerAt(w: World, n: nat): Worker {
    if n in w.workers then w.workers[n] else Idle
  }

  predicate Enabled(w: World, a: Action) {
    match a
    case Tick(to) => w.clock <= to
    case Insert(id, row) => id !in w.rows && Fresh(row)
    case Ask(n, lockId) => WorkerAt(w, n).Idle? && lockId !in w.usedLocks
    case Claim(n, id, skipped) =>
      && WorkerAt(w, n).Asking?
      && Candidate(w.rows, w.workers[n].askedAt, w.workers[n].askedAt - LOCK_LEASE, skipped, id)
      && id in w.ledgers
    case Start(n) => WorkerAt(w, n).Holding?
    case Handle(n, _) => WorkerAt(w, n).Handling?
    case MarkEvent(n, at, _, _) => WorkerAt(w, n).Marking? && w.workers[n].handledAt <= at <= w.clock
    case Leave(_) => true
  }

  function ClaimStep(w: World, n: nat, id: Uuid): World
    requires n in w.workers && w.workers[n].Asking? && id in w.rows && id in w.ledgers
  {
    var worker, row, ledger := w.workers[n], w.rows[id], w.ledgers[id];
    var claimed := Claimed(row, worker.lockId, worker.askedAt);
    w.(rows := w.rows[id := claimed],
       workers := w.workers[n := Holding(worker.lockId, worker.askedAt, EventOf(id, claimed))],
       ledgers := w.ledgers[id := ledger.(
         claims := ledger.claims + [worker.askedAt],
         superseded := ledger.superseded + if row.lockId.Some? then 1 else 0)])
  }

  /** The mark of worker `n` finds its row under its own lock. */
  predicate HitsRow(w: World, n: nat, mark: Mark)
    requires n in w.workers && w.workers[n].Marking?
  {
    w.workers[n].event.id in w.rows && Matches(w.rows[w.workers[n].event.id], w.workers[n].lockId, mark)
  }

  function LedgerAfter(ledger: Ledger, mark: Mark, at: Time): Ledger {
    if mark.RetryAt? then ledger.(retries := ledger.retries + 1, backoff := ledger.backoff + (mark.at - at))
    else ledger
  }

  function MarkStep(w: World, n: nat, at: Time, draw: Draw): World
    requires n in w.workers && w.workers[n].Marking?
  {
    var worker := w.workers[n];
    var id := worker.event.id;
    var mark := MarkFor(worker.result, worker.event.attempts, at, draw);
    var after := w.(workers := w.workers[n := Idle]);
    if !HitsRow(w, n, mark) then after
    else
      after.(rows := Marked(w.rows, id, worker.lockId, mark),
             marked := w.marked + {worker.lockId},
             ledgers := if id in w.ledgers then w.ledgers[id := LedgerAfter(w.ledgers[id], mark, at)] else w.ledgers)
  }

  /** The world after one action; an action that is not possible changes nothing. */
  function Next(w: World, workTimeout: Time, a: Action): World {
    if !Enabled(w, a) then w
    else
      match a
      case Tick(to) => w.(clock := to)
      case Insert(id, row) => w.(rows := w.rows[id := row], ledgers := w.ledgers[id := Ledger([], 0, 0, 0)])
      case Ask(n, lockId) =>
        w.(workers := w.workers[n := Asking(lockId, w.clock)], usedLocks := w.usedLocks + {lockId})
      case Claim(n, id, _) => ClaimStep(w, n, id)
      case Start(n) =>
        var worker := w.workers[n];
        w.(workers := w.workers[n :=
             Handling(worker.lockId, worker.askedAt, worker.event, w.clock + workTimeout)])
      case Handle(n, result) =>
        var worker := w.workers[n];
        w.(workers := w.workers[n :=
             Marking(worker.lockId, worker.askedAt, worker.event, worker.deadline, result, w.clock)])
      case MarkEvent(n, at, draw, effective) =>
        if effective then MarkStep(w, n, at, draw) else w.(workers := w.workers[n := Idle])
      case Leave(n) => w.(workers := w.workers[n := Idle])
  }

  function Run(workTimeout: Time, actions: seq<Action>): World {
    if actions == [] then EMPTY
    else Next(Run(workTimeout, actions[..|actions| - 1]), workTimeout, actions[|actions| - 1])
  }

  // ---------------------------------------------------------------------------------------
  // The invariants
  // ---------------------------------------------------------------------------------------

  function Bit(b: bool): nat {
    if b then 1 else 0
  }

  /** A held lock means neither processed nor failed; the two terminal marks exclude each other;
      the lock columns go together; and every attempt is accounted for. */
  ghost predicate Accounted(row: Row, ledger: Ledger) {
    && (row.lockedAt.Some? <==> row.lockId.Some?)
    && (row.lockId.Some? ==> Pending(row))
    && !(row.processedAt.Some? && row.failedAt.Some?)
    && row.attempts == ledger.retries + ledger.superseded + Bit(row.lockId.Some?) + Bit(!Pending(row))
    && ledger.retries < MAX_ATTEMPTS
    && |ledger.claims| == row.attempts
  }

  ghost predicate SpacedOut(claims: seq<Time>) {
    forall i :: 0 <= i < |claims| - 1 ==> claims[i] + SHORTEST_DELAY <= claims[i + 1]
  }

  /** Claims of one event keep their distance, and a scheduled retry keeps it from the last. */
  ghost predicate Timely(row: Row, ledger: Ledger, clock: Time) {
    && SpacedOut(ledger.claims)
    && (ledger.claims != [] ==> ledger.claims[|ledger.claims| - 1] <= clock)
    && (row.lockId.Some? && row.lockedAt.Some? && ledger.claims != [] ==>
          row.lockedAt.value == ledger.claims[|ledger.claims| - 1])
    && (Pending(row) && row.lockId.None? && ledger.claims != [] ==>
          ledger.claims[|ledger.claims| - 1] + SHORTEST_DELAY <= row.availableAt)
    && (row.lockId.Some? && row.lockedAt.Some? ==> row.availableAt <= row.lockedAt.value)
  }

  /** Without superseded claims the claims also keep the growing distances of the backoff. */
  ghost predicate BackedOff(row: Row, ledger: Ledger) {
    ledger.superseded == 0 && ledger.claims != [] ==>
      && ledger.claims[0] + LeastSpan(|ledger.claims|) <= ledger.claims[|ledger.claims| - 1]
      && (Pending(row) && row.lockId.None? ==>
            ledger.claims[0] + LeastSpan(|ledger.claims| + 1) <= row.availableAt)
      && LeastSpan(ledger.retries + 1) <= ledger.backoff <= GreatestSpan(ledger.retries + 1)
  }

  ghost predicate RowInv(w: World, id: Uuid)
    requires id in w.rows
  {
    && id in w.ledgers
    && Accounted(w.rows[id], w.ledgers[id])
    && Timely(w.rows[id], w.ledgers[id], w.clock)
    && BackedOff(w.rows[id], w.ledgers[id])
    && (w.ledgers[id].claims == [] ==> w.ledgers[id].backoff == 0)
    && (w.rows[id].lockId.Some? ==>
          w.rows[id].lockId.value in w.usedLocks && w.rows[id].lockId.value !in w.marked)
  }

  /** A worker's lock was drawn, is on no other event's row, and while it is on its own event's
      row that row is as the worker claimed it. */
  ghost predicate WorkerInv(w: World, n: nat)
    requires n in w.workers
  {
    var worker := w.workers[n];
    && (!worker.Idle? ==>
          worker.lockId in w.usedLocks && worker.lockId !in w.marked && worker.askedAt <= w.clock)
    && (worker.Marking? ==> worker.askedAt <= worker.handledAt)
    && (worker.Asking? ==> forall id :: id in w.rows ==> w.rows[id].lockId != Some(worker.lockId))
    && (worker.Busy() ==>
          && worker.event.id in w.rows && worker.event.attempts > 0
          && (forall id :: id in w.rows && w.rows[id].lockId == Some(worker.lockId) ==>
                && id == worker.event.id
                && w.rows[id].attempts == worker.event.attempts
                && w.rows[id].lockedAt == Some(worker.askedAt)))
  }

  /** Two workers never share a lock. */
  ghost predicate OwnLocks(w: World, m: nat, n: nat) {
    m in w.workers && n in w.workers && m != n && !w.workers[m].Idle? && !w.workers[n].Idle? ==>
      w.workers[m].lockId != w.workers[n].lockId
  }

  ghost predicate Inv(w: World) {
    && (forall id :: id in w.rows ==> RowInv(w, id))
    && (forall n :: n in w.workers ==> WorkerInv(w, n))
    && (forall m, n {:trigger OwnLocks(w, m, n)} :: OwnLocks(w, m, n))
    && w.marked <= w.usedLocks
  }

  // ---------------------------------------------------------------------------------------
  // Claims
  // ---------------------------------------------------------------------------------------

  lemma ClaimKeepsRow(w: World, n: nat, id: Uuid, skipped: set<Uuid>, j: Uuid)
    requires Inv(w) && Enabled(w, Claim(n, id, skipped)) && j in w.rows
    ensures RowInv(ClaimStep(w, n, id), j)
  {
  }

  lemma ClaimKeepsWorker(w: World, n: nat, id: Uuid, skipped: set<Uuid>, m: nat)
    requires Inv(w) && Enabled(w, Claim(n, id, skipped)) && m in w.workers
    ensures WorkerInv(ClaimStep(w, n, id), m)
  {
    assert WorkerInv(w, m) && WorkerInv(w, n) && OwnLocks(w, m, n);
  }

  lemma ClaimKeepsInv(w: World, n: nat, id: Uuid, skipped: set<Uuid>)
    requires Inv(w) && Enabled(w, Claim(n, id, skipped))
    ensures Inv(ClaimStep(w, n, id))
  {
    var after := ClaimStep(w, n, id);
    forall j | j in after.rows ensures RowInv(after, j) {
      ClaimKeepsRow(w, n, id, skipped, j);
    }
    forall m | m in after.workers ensures WorkerInv(after, m) {
      ClaimKeepsWorker(w, n, id, skipped, m);
    }
    forall k, m ensures OwnLocks(after, k, m) {
      assert OwnLocks(w, k, m);
    }
  }

  // ---------------------------------------------------------------------------------------
  // Marks
  // ---------------------------------------------------------------------------------------

  lemma MarkKeepsAccount(row: Row, ledger: Ledger, lockId: Uuid, result: Result, at: Time, draw: Draw)
    requires Accounted(row, ledger) && row.lockId == Some(lockId)
    ensures var mark := MarkFor(result, row.attempts, at, draw);
            Matches(row, lockId, mark) && Accounted(MarkedRow(row, mark), LedgerAfter(ledger, mark, at))
  {
  }

  lemma MarkKeepsTimes(
      row: Row, ledger: Ledger, lockId: Uuid, result: Result, clock: Time, at: Time, draw: Draw)
    requires Accounted(row, ledger) && Timely(row, ledger, clock) && BackedOff(row, ledger)
    requires row.lockId == Some(lockId) && row.lockedAt.Some? && row.lockedAt.value <= at
    ensures var mark := MarkFor(result, row.attempts, at, draw);
            && Timely(MarkedRow(row, mark), LedgerAfter(ledger, mark, at), clock)
            && BackedOff(MarkedRow(row, mark), LedgerAfter(ledger, mark, at))
  {
    DelayBounds(row.attempts, draw);
    DelayWithinSpans(row.attempts, draw);
  }

  /** A mark that takes effect is made under the row's own, so far unmarked lock, and sees the
      row as it was claimed. */
  lemma HitMeansOwned(w: World, n: nat, mark: Mark)
    requires Inv(w) && n in w.workers && w.workers[n].Marking? && HitsRow(w, n, mark)
    ensures var worker, row := w.workers[n], w.rows[w.workers[n].event.id];
            && row.lockId == Some(worker.lockId) && Pending(row) && worker.lockId !in w.marked
            && row.attempts == worker.event.attempts && row.lockedAt == Some(worker.askedAt)
            && w.workers[n].event.id in w.ledgers
  {
  }

  lemma MarkKeepsRow(w: World, n: nat, at: Time, draw: Draw, j: Uuid)
    requires Inv(w) && n in w.workers && w.workers[n].Marking? && j in w.rows
    requires w.workers[n].handledAt <= at <= w.clock
    ensures RowInv(MarkStep(w, n, at, draw), j)
  {
    var worker := w.workers[n];
    var mark := MarkFor(worker.result, worker.event.attempts, at, draw);
    assert RowInv(w, j) && WorkerInv(w, n);
    if HitsRow(w, n, mark) {
      HitMeansOwned(w, n, mark);
      if j == worker.event.id {
        MarkKeepsAccount(w.rows[j], w.ledgers[j], worker.lockId, worker.result, at, draw);
        MarkKeepsTimes(w.rows[j], w.ledgers[j], worker.lockId, worker.result, w.clock, at, draw);
        assert MarkStep(w, n, at, draw).ledgers[j] == LedgerAfter(w.ledgers[j], mark, at);
      }
    }
  }

  lemma MarkKeepsWorker(w: World, n: nat, at: Time, draw: Draw, m: nat)
    requires Inv(w) && n in w.workers && w.workers[n].Marking? && m in w.workers
    ensures WorkerInv(MarkStep(w, n, at, draw), m)
  {
    assert OwnLocks(w, m, n);
  }

  lemma {:induction false} MarkKeepsInv(w: World, n: nat, at: Time, draw: Draw)
    requires Inv(w) && n in w.workers && w.workers[n].Marking?
    requires w.workers[n].handledAt <= at <= w.clock
    ensures Inv(MarkStep(w, n, at, draw))
  {
    var after := MarkStep(w, n, at, draw);
    assert WorkerInv(w, n);
    forall j | j in after.rows ensures RowInv(after, j) {
      MarkKeepsRow(w, n, at, draw, j);
    }
    forall m | m in after.workers ensures WorkerInv(after, m) {
      MarkKeepsWorker(w, n, at, draw, m);
    }
    forall k, m ensures OwnLocks(after, k, m) {
      assert OwnLocks(w, k, m);
    }
  }

  // ---------------------------------------------------------------------------------------
  // The other actions
  // ---------------------------------------------------------------------------------------

  lemma InsertKeepsInv(w: World, workTimeout: Time, id: Uuid, row: Row)
    requires Inv(w) && Enabled(w, Insert(id, row))
    ensures Inv(Next(w, workTimeout, Insert(id, row)))
  {
    var after := Next(w, workTimeout, Insert(id, row));
    forall j | j in after.rows ensures RowInv(after, j) {
      assert j != id ==> RowInv(w, j);
    }
    forall m | m in after.workers ensures WorkerInv(after, m) {
      assert WorkerInv(w, m);
    }
    forall k, m ensures OwnLocks(after, k, m) {
      assert OwnLocks(w, k, m);
    }
  }

  lemma TickKeepsInv(w: World, to: Time)
    requires Inv(w) && w.clock <= to
    ensures Inv(w.(clock := to))
  {
    var after := w.(clock := to);
    forall j | j in after.rows ensures RowInv(after, j) {
      assert RowInv(w, j);
    }
    forall m | m in after.workers ensures WorkerInv(after, m) {
      assert WorkerInv(w, m);
    }
    forall k, m ensures OwnLocks(after, k, m) {
      assert OwnLocks(w, k, m);
    }
  }

  /** A worker that draws a new lock, gets its result, or leaves. */
  lemma MovedWorkerKeepsInv(w: World, after: World, n: nat)
    requires Inv(w) && after.clock == w.clock && after.rows == w.rows && after.ledgers == w.ledgers
    requires after.marked == w.marked && w.usedLocks <= after.usedLocks
    requires n in after.workers && after.workers == w.workers[n := after.workers[n]] && WorkerInv(after, n)
    requires || after.workers[n].Idle?
             || (n in w.workers && !w.workers[n].Idle? && after.workers[n].lockId == w.workers[n].lockId)
             || after.workers[n].lockId !in w.usedLocks
    ensures Inv(after)
  {
    forall j | j in after.rows ensures RowInv(after, j) {
      assert RowInv(w, j);
    }
    forall m | m in after.workers ensures WorkerInv(after, m) {
      assert m != n ==> WorkerInv(w, m);
    }
    forall k, m ensures OwnLocks(after, k, m) {
      assert OwnLocks(w, k, m);
      assert k in w.workers ==> WorkerInv(w, k);
      assert m in w.workers ==> WorkerInv(w, m);
    }
  }

  lemma AskKeepsInv(w: World, workTimeout: Time, n: nat, lockId: Uuid)
    requires Inv(w) && Enabled(w, Ask(n, lockId))
    ensures Inv(Next(w, workTimeout, Ask(n, lockId)))
  {
    var after := Next(w, workTimeout, Ask(n, lockId));
    forall id | id in w.rows ensures w.rows[id].lockId != Some(lockId) {
      assert RowInv(w, id);
    }
    assert WorkerInv(after, n);
    MovedWorkerKeepsInv(w, after, n);
  }

  lemma NextKeepsInv(w: World, workTimeout: Time, a: Action)
    requires Inv(w)
    ensures Inv(Next(w, workTimeout, a))
  {
    if Enabled(w, a) {
      var after := Next(w, workTimeout, a);
      match a
      case Tick(to) => TickKeepsInv(w, to);
      case Insert(id, row) => InsertKeepsInv(w, workTimeout, id, row);
      case Ask(n, lockId) => AskKeepsInv(w, workTimeout, n, lockId);
      case Claim(n, id, skipped) => ClaimKeepsInv(w, n, id, skipped);
      case Start(n) =>
        assert WorkerInv(w, n);
        MovedWorkerKeepsInv(w, after, n);
      case Handle(n, _) =>
        assert WorkerInv(w, n);
        MovedWorkerKeepsInv(w, after, n);
      case MarkEvent(n, at, draw, effective) =>
        if effective {
          MarkKeepsInv(w, n, at, draw);
        } else {
          MovedWorkerKeepsInv(w, after, n);
        }
      case Leave(n) => MovedWorkerKeepsInv(w, after, n);
    }
  }

  lemma {:induction false} RunKeepsInv(workTimeout: Time, actions: seq<Action>)
    ensures Inv(Run(workTimeout, actions))
  {
    if actions != [] {
      RunKeepsInv(workTimeout, actions[..|actions| - 1]);
      NextKeepsInv(Run(workTimeout, actions[..|actions| - 1]), workTimeout, actions[|actions| - 1]);
    }
  }

  // ---------------------------------------------------------------------------------------
  // Conservation of claims
  // ---------------------------------------------------------------------------------------

  /** Every claim of an event ended in a retry or in the terminal mark, was superseded, or is the
      current one; so attempts exceed the limit only by the claims that were superseded. */
  lemma ClaimsAreConserved(workTimeout: Time, actions: seq<Action>, id: Uuid)
    requires id in Run(workTimeout, actions).rows
    ensures var w := Run(workTimeout, actions);
            && id in w.ledgers
            && var row, ledger := w.rows[id], w.ledgers[id];
            && row.attempts == |ledger.claims|
            && row.attempts == ledger.retries + ledger.superseded + Bit(row.lockId.Some?) + Bit(!Pending(row))
            && row.attempts <= MAX_ATTEMPTS + ledger.superseded
            && (row.lockId.Some? ==> Pending(row))
            && !(row.processedAt.Some? && row.failedAt.Some?)
  {
    RunKeepsInv(workTimeout, actions);
    assert RowInv(Run(workTimeout, actions), id);
  }

  /** How often each event was claimed, and how many of its claims were superseded. */
  function ClaimCounts(w: World): map<Uuid, nat> {
    map id | id in w.rows && id in w.ledgers :: |w.ledgers[id].claims|
  }

  function SupersededCounts(w: World): map<Uuid, nat> {
    map id | id in w.rows && id in w.ledgers :: w.ledgers[id].superseded
  }

  lemma ClaimsOfEach(w: World)
    requires Inv(w)
    ensures ClaimCounts(w).Keys == w.rows.Keys && SupersededCounts(w).Keys == w.rows.Keys
    ensures forall id :: id in ClaimCounts(w) ==> ClaimCounts(w)[id] <= MAX_ATTEMPTS + SupersededCounts(w)[id]
  {
    forall id | id in w.rows
      ensures id in w.ledgers && |w.ledgers[id].claims| <= MAX_ATTEMPTS + w.ledgers[id].superseded
    {
      assert RowInv(w, id);
    }
  }

  /** However the workers interleave, and whatever is lost, all claims together are at most ten for
      each event and one for each claim that was superseded. */
  lemma {:induction false} ClaimsAreBounded(workTimeout: Time, actions: seq<Action>)
    ensures var w := Run(workTimeout, actions);
            && ClaimCounts(w).Keys == w.rows.Keys
            && Sum(ClaimCounts(w)) <= MAX_ATTEMPTS * |w.rows.Keys| + Sum(SupersededCounts(w))
  {
    var w := Run(workTimeout, actions);
    RunKeepsInv(workTimeout, actions);
    ClaimsOfEach(w);
    SumBound(ClaimCounts(w), SupersededCounts(w), MAX_ATTEMPTS);
  }

  // ---------------------------------------------------------------------------------------
  // Fencing
  // ---------------------------------------------------------------------------------------

  /** The lock was drawn and is on no row, nor about to be put on one. */
  ghost predicate Gone(w: World, lockId: Uuid) {
    && lockId in w.usedLocks
    && (forall id :: id in w.rows ==> w.rows[id].lockId != Some(lockId))
    && (forall n :: n in w.workers && w.workers[n].Asking? ==> w.workers[n].lockId != lockId)
  }

  lemma NextKeepsGone(w: World, workTimeout: Time, a: Action, lockId: Uuid)
    requires Gone(w, lockId)
    ensures Gone(Next(w, workTimeout, a), lockId)
  {
  }

  function RunFrom(w: World, workTimeout: Time, actions: seq<Action>): World {
    if actions == [] then w
    else Next(RunFrom(w, workTimeout, actions[..|actions| - 1]), workTimeout, actions[|actions| - 1])
  }

  /** A lock that its event's row does not carry any more is on no row and on its way to none. */
  lemma LostLockIsGone(w: World, n: nat)
    requires Inv(w) && WorkerAt(w, n).Busy()
    requires var worker := w.workers[n];
             worker.event.id in w.rows ==> w.rows[worker.event.id].lockId != Some(worker.lockId)
    ensures Gone(w, w.workers[n].lockId)
  {
    assert WorkerInv(w, n);
    forall m | m in w.workers && w.workers[m].Asking? ensures w.workers[m].lockId != w.workers[n].lockId {
      assert OwnLocks(w, m, n);
    }
  }

  lemma {:induction false} GoneForGood(w: World, workTimeout: Time, actions: seq<Action>, lockId: Uuid)
    requires Gone(w, lockId)
    ensures Gone(RunFrom(w, workTimeout, actions), lockId)
  {
    if actions != [] {
      var front := actions[..|actions| - 1];
      GoneForGood(w, workTimeout, front, lockId);
      NextKeepsGone(RunFrom(w, workTimeout, front), workTimeout, actions[|actions| - 1], lockId);
    }
  }

  /** Once its event's row does not carry a worker's lock any more, because the claim was superseded
      or marked, that lock is on no row ever again, and a mark under it, however late, changes
      neither the table nor the history. */
  lemma {:induction false} SupersededMarkChangesNothing(
      workTimeout: Time, before: seq<Action>, actions: seq<Action>, n: nat, at: Time, draw: Draw)
    requires var w := Run(workTimeout, before);
             && WorkerAt(w, n).Busy()
             && (w.workers[n].event.id in w.rows ==>
                   w.rows[w.workers[n].event.id].lockId != Some(w.workers[n].lockId))
    ensures var w := Run(workTimeout, before);
            var lockId, late := w.workers[n].lockId, RunFrom(w, workTimeout, actions);
            && (forall id :: id in late.rows ==> late.rows[id].lockId != Some(lockId))
            && (WorkerAt(late, n).Marking? && late.workers[n].lockId == lockId ==>
                  var after := Next(late, workTimeout, MarkEvent(n, at, draw, true));
                  after.rows == late.rows && after.ledgers == late.ledgers && after.marked == late.marked)
  {
    var w := Run(workTimeout, before);
    RunKeepsInv(workTimeout, before);
    LostLockIsGone(w, n);
    GoneForGood(w, workTimeout, actions, w.workers[n].lockId);
  }

  /** A mark takes effect exactly when the row still carries the worker's lock; then it is the
      first under that lock, it ends the claim, and the lock is gone for good. */
  lemma MarksAreFenced(workTimeout: Time, actions: seq<Action>, n: nat, at: Time, draw: Draw)
    requires WorkerAt(Run(workTimeout, actions), n).Marking?
    ensures var w := Run(workTimeout, actions);
            var worker := w.workers[n];
            var mark := MarkFor(worker.result, worker.event.attempts, at, draw);
            && (HitsRow(w, n, mark) <==>
                  worker.event.id in w.rows && w.rows[worker.event.id].lockId == Some(worker.lockId))
            && (HitsRow(w, n, mark) ==>
                  && worker.lockId !in w.marked
                  && worker.lockId in MarkStep(w, n, at, draw).marked
                  && Gone(MarkStep(w, n, at, draw), worker.lockId))
  {
    var w := Run(workTimeout, actions);
    RunKeepsInv(workTimeout, actions);
    var worker := w.workers[n];
    var mark := MarkFor(worker.result, worker.event.attempts, at, draw);
    assert WorkerInv(w, n);
    if worker.event.id in w.rows && w.rows[worker.event.id].lockId == Some(worker.lockId) {
      assert RowInv(w, worker.event.id);
    }
    if HitsRow(w, n, mark) {
      HitMeansOwned(w, n, mark);
      forall m | m in w.workers && m != n && w.workers[m].Asking? ensures w.workers[m].lockId != worker.lockId {
        assert OwnLocks(w, m, n);
      }
    }
  }

  /** What became of the event's row: a success is processed at once, a refusal fails at once, and an
      error fails from the tenth attempt on and before that waits for its delay; no lock is left. */
  ghost predicate Concluded(row: Row, result: Result, attempts: nat, at: Time) {
    && row.lockId.None? && row.lockedAt.None? && row.attempts == attempts
    && (result.Succeeded? ==> row.processedAt == Some(at) && row.failedAt.None? && row.payload == Object(NIL_UUID, ""))
    && (result.NonRetryable? || (result.Retryable? && attempts >= 10) ==>
          row.failedAt == Some(at) && row.processedAt.None?)
    && (result.Retryable? && attempts < 10 ==>
          && row.failedAt.None? && row.processedAt.None?
          && at + 3_750_000_000 <= row.availableAt <= at + 375_000_000_000)
  }

  /** A mark under the row's own lock concludes the claim as the handler's result asks, over every
      run; one that is lost leaves the table as it is. */
  lemma {:induction false} MarksConclude(
      workTimeout: Time, actions: seq<Action>, n: nat, at: Time, draw: Draw, effective: bool)
    requires Enabled(Run(workTimeout, actions), MarkEvent(n, at, draw, effective))
    ensures var w := Run(workTimeout, actions);
            var worker, after := w.workers[n], Next(w, workTimeout, MarkEvent(n, at, draw, effective));
            var e := worker.event.id;
            && after.rows.Keys == w.rows.Keys && (forall j :: j in w.rows && j != e ==> after.rows[j] == w.rows[j])
            && e in w.rows
            && if effective && w.rows[e].lockId == Some(worker.lockId)
               then Concluded(after.rows[e], worker.result, w.rows[e].attempts, at)
               else after.rows == w.rows
  {
    var w := Run(workTimeout, actions);
    RunKeepsInv(workTimeout, actions);
    assert WorkerInv(w, n) && RowInv(w, w.workers[n].event.id);
    DelayBounds(w.workers[n].event.attempts, draw);
  }

  /** A claim takes a row that is available and either unlocked or locked for more than a minute, one
      that became available no later than any other it might take and of those was created first, and
      hands it to the worker. */
  lemma {:induction false} ClaimsTakeWhatIsFree(
      workTimeout: Time, actions: seq<Action>, n: nat, id: Uuid, skipped: set<Uuid>)
    requires Enabled(Run(workTimeout, actions), Claim(n, id, skipped))
    ensures var w := Run(workTimeout, actions);
            var row, worker := w.rows[id], w.workers[n];
            var after := Next(w, workTimeout, Claim(n, id, skipped));
            && row.processedAt.None? && row.failedAt.None? && row.availableAt <= worker.askedAt
            && (row.lockedAt.Some? ==> row.lockedAt.value + 60_000_000_000 < worker.askedAt)
            && (forall j :: j in w.rows && j !in skipped && Pending(w.rows[j]) && w.rows[j].lockedAt.None?
                            && w.rows[j].availableAt <= worker.askedAt ==>
                  || row.availableAt < w.rows[j].availableAt
                  || (row.availableAt == w.rows[j].availableAt && row.createdAt <= w.rows[j].createdAt))
            && after.rows == w.rows[id := row.(lockId := Some(worker.lockId), lockedAt := Some(worker.askedAt),
                                               attempts := row.attempts + 1, lastError := None)]
            && after.workers == w.workers[n := Holding(worker.lockId, worker.askedAt, Event(
                 id, row.eventType, row.payload, row.createdAt, row.availableAt, row.attempts + 1))]
  {
  }

  // ---------------------------------------------------------------------------------------
  // Time between claims
  // ---------------------------------------------------------------------------------------

  lemma {:induction false} DistancesAddUp(claims: seq<Time>, i: nat, j: nat)
    requires SpacedOut(claims) && i <= j < |claims|
    ensures claims[i] + (j - i) * SHORTEST_DELAY <= claims[j]
  {
    if i < j {
      DistancesAddUp(claims, i, j - 1);
      assert claims[j - 1] + SHORTEST_DELAY <= claims[j - 1 + 1];
    }
  }

  /** Over all workers, crashes and lost leases, n claims of one event span at least n - 1 times
      3.75 s. */
  lemma ClaimsAreSpread(workTimeout: Time, actions: seq<Action>, id: Uuid, i: nat, j: nat)
    requires id in Run(workTimeout, actions).ledgers && id in Run(workTimeout, actions).rows
    requires i <= j < |Run(workTimeout, actions).ledgers[id].claims|
    ensures var claims := Run(workTimeout, actions).ledgers[id].claims;
            claims[i] + (j - i) * SHORTEST_DELAY <= claims[j]
  {
    RunKeepsInv(workTimeout, actions);
    assert RowInv(Run(workTimeout, actions), id);
    DistancesAddUp(Run(workTimeout, actions).ledgers[id].claims, i, j);
  }

  /** Without lost leases n claims span the least backoff of n - 1 failed attempts, and the
      scheduled backoff stays within its bounds; ten attempts span at least 1207.5 s and wait at
      most 2012.5 s by schedule. */
  lemma {:induction false} BackoffSpans(workTimeout: Time, actions: seq<Action>, id: Uuid)
    requires id in Run(workTimeout, actions).rows && id in Run(workTimeout, actions).ledgers
    requires var ledger := Run(workTimeout, actions).ledgers[id]; ledger.superseded == 0 && ledger.claims != []
    ensures var ledger := Run(workTimeout, actions).ledgers[id];
            var n := |ledger.claims|;
            && n <= MAX_ATTEMPTS
            && LeastSpan(n) <= ledger.claims[n - 1] - ledger.claims[0]
            && LeastSpan(ledger.retries + 1) <= ledger.backoff <= GreatestSpan(ledger.retries + 1)
            && (n == MAX_ATTEMPTS ==> ledger.claims[n - 1] - ledger.claims[0] >= 1207 * SECOND + SECOND / 2)
            && ledger.backoff <= 2012 * SECOND + SECOND / 2
  {
    RunKeepsInv(workTimeout, actions);
    assert RowInv(Run(workTimeout, actions), id);
    TenAttempts();
    SpansGrow(Run(workTimeout, actions).ledgers[id].retries + 1, 10);
  }

  lemma {:induction false} SpansGrow(m: nat, n: nat)
    requires m <= n
    ensures GreatestSpan(m) <= GreatestSpan(n)
  {
    if m < n {
      SpansGrow(m, n - 1);
    }
  }

  // ---------------------------------------------------------------------------------------
  // Lease exclusion
  // ---------------------------------------------------------------------------------------

  /** Every worker starts its work context within `latency` of the time it took for its claim. */
  ghost predicate Punctual(workTimeout: Time, actions: seq<Action>, latency: Time) {
    forall i :: 0 <= i < |actions| && actions[i].Start? ==>
      var w := Run(workTimeout, actions[..i]);
      WorkerAt(w, actions[i].worker).Holding? ==> w.clock <= w.workers[actions[i].worker].askedAt + latency
  }

  /** The worker is at work and its work context has not ended. */
  predicate AtWork(w: World, n: nat) {
    n in w.workers && (w.workers[n].Handling? || w.workers[n].Marking?) && w.clock <= w.workers[n].deadline
  }

  /** Until its lease ends a worker's lock is on its event's row. */
  ghost predicate HoldsLease(w: World, n: nat)
    requires n in w.workers
  {
    w.workers[n].Busy() && w.clock <= w.workers[n].askedAt + LOCK_LEASE ==>
      && w.workers[n].event.id in w.rows
      && w.rows[w.workers[n].event.id].lockId == Some(w.workers[n].lockId)
  }

  predicate EndsInTime(worker: Worker) {
    worker.Handling? || worker.Marking? ==> worker.deadline <= worker.askedAt + LOCK_LEASE
  }

  lemma ClaimRespectsLeases(w: World, n: nat, id: Uuid, skipped: set<Uuid>, m: nat)
    requires Inv(w) && Enabled(w, Claim(n, id, skipped)) && m in w.workers && HoldsLease(w, m)
    ensures HoldsLease(ClaimStep(w, n, id), m)
  {
    assert WorkerInv(w, m) && WorkerInv(w, n);
  }

  lemma MarkRespectsLeases(w: World, n: nat, at: Time, draw: Draw, m: nat)
    requires Inv(w) && n in w.workers && w.workers[n].Marking? && m in w.workers && HoldsLease(w, m)
    ensures HoldsLease(MarkStep(w, n, at, draw), m)
  {
    assert OwnLocks(w, m, n);
    var mark := MarkFor(w.workers[n].result, w.workers[n].event.attempts, at, draw);
    if HitsRow(w, n, mark) {
      HitMeansOwned(w, n, mark);
    }
  }

  lemma NextRespectsLeases(w: World, workTimeout: Time, a: Action, m: nat)
    requires Inv(w) && (m in w.workers ==> HoldsLease(w, m))
    requires m in Next(w, workTimeout, a).workers
    ensures HoldsLease(Next(w, workTimeout, a), m)
  {
    if Enabled(w, a) && m in w.workers {
      match a
      case Claim(n, id, skipped) => ClaimRespectsLeases(w, n, id, skipped, m);
      case MarkEvent(n, at, draw, effective) =>
        if effective {
          MarkRespectsLeases(w, n, at, draw, m);
        }
      case _ =>
    }
  }

  /** No claim takes a row from a worker whose lease has not ended, however slow the workers are. */
  lemma {:induction false} LeasesHold(workTimeout: Time, actions: seq<Action>, m: nat)
    requires m in Run(workTimeout, actions).workers
    ensures HoldsLease(Run(workTimeout, actions), m)
  {
    if actions != [] {
      var front := actions[..|actions| - 1];
      RunKeepsInv(workTimeout, front);
      if m in Run(workTimeout, front).workers {
        LeasesHold(workTimeout, front, m);
      }
      NextRespectsLeases(Run(workTimeout, front), workTimeout, actions[|actions| - 1], m);
    }
  }

  lemma {:induction false} WorkEndsInTime(workTimeout: Time, actions: seq<Action>, latency: Time, m: nat)
    requires latency + workTimeout <= LOCK_LEASE && Punctual(workTimeout, actions, latency)
    requires m in Run(workTimeout, actions).workers
    ensures EndsInTime(Run(workTimeout, actions).workers[m])
  {
    if actions != [] {
      var front, last := actions[..|actions| - 1], actions[|actions| - 1];
      forall i | 0 <= i < |front| && front[i].Start?
        ensures var w := Run(workTimeout, front[..i]);
                WorkerAt(w, front[i].worker).Holding? ==> w.clock <= w.workers[front[i].worker].askedAt + latency
      {
        assert actions[i] == front[i] && actions[..i] == front[..i];
      }
      if m in Run(workTimeout, front).workers {
        WorkEndsInTime(workTimeout, front, latency, m);
      }
      assert actions[..|front|] == front;
    }
  }

  /** If claim latency plus work timeout is at most the lease, two workers never work on one
      event at the same time, and no mark of a worker at work is refused as a lost lease. */
  lemma {:induction false} LeaseExclusion(
      workTimeout: Time, actions: seq<Action>, latency: Time, m: nat, n: nat, at: Time, draw: Draw)
    requires latency + workTimeout <= LOCK_LEASE && Punctual(workTimeout, actions, latency)
    requires AtWork(Run(workTimeout, actions), m) && AtWork(Run(workTimeout, actions), n)
    ensures var w := Run(workTimeout, actions);
            && (w.workers[m].event.id == w.workers[n].event.id ==> m == n)
            && (w.workers[m].Marking? ==>
                  HitsRow(w, m, MarkFor(w.workers[m].result, w.workers[m].event.attempts, at, draw)))
  {
    var w := Run(workTimeout, actions);
    RunKeepsInv(workTimeout, actions);
    LeasesHold(workTimeout, actions, m);
    LeasesHold(workTimeout, actions, n);
    WorkEndsInTime(workTimeout, actions, latency, m);
    WorkEndsInTime(workTimeout, actions, latency, n);
    assert OwnLocks(w, m, n) && WorkerInv(w, m) && RowInv(w, w.workers[m].event.id);
  }
}
