/** Runs in which every claim's mark commits: a finite set of events is worked off, and nothing
    waits behind the same event twice (internal/outbox/processor.go,
    internal/adapter/repository/postgres/outbox_repository.go). */
module Drain {
  import opened Core
  import opened Sums
  import opened OutboxTable
  import opened Backoff
  import opened Workers
  import opened Dispatch

  /** One call of `ProcessOne` that claims `id`, with whatever result the handler returns. */
  datatype Round = Round(
    id: Uuid, lockId: Uuid, now: Time, skipped: set<Uuid>, result: Result, markedAt: Time, draw: Draw)
  {
    /** The claim is one that `ClaimNext` may make in `rows`. */
    predicate Possible(rows: Rows) {
      Candidate(rows, now, now - LOCK_LEASE, skipped, id)
    }
  }

  function Next(rows: Rows, r: Round): Rows {
    if r.id !in rows then rows else Worked(rows, r.id, r.lockId, r.now, r.result, r.markedAt, r.draw)
  }

  function After(rows: Rows, rounds: seq<Round>): Rows {
    if rounds == [] then rows else Next(After(rows, rounds[..|rounds| - 1]), rounds[|rounds| - 1])
  }

  ghost predicate AllPossible(rows: Rows, rounds: seq<Round>) {
    forall i :: 0 <= i < |rounds| ==> rounds[i].Possible(After(rows, rounds[..i]))
  }

  lemma FrontPossible(rows: Rows, rounds: seq<Round>)
    requires AllPossible(rows, rounds) && rounds != []
    ensures AllPossible(rows, rounds[..|rounds| - 1])
    ensures rounds[|rounds| - 1].Possible(After(rows, rounds[..|rounds| - 1]))
  {
    var front := rounds[..|rounds| - 1];
    forall i | 0 <= i < |front| ensures front[i].Possible(After(rows, front[..i])) {
      assert front[..i] == rounds[..i] && front[i] == rounds[i];
    }
  }

  // ---------------------------------------------------------------------------------------
  // Termination
  // ---------------------------------------------------------------------------------------

  function Weight(row: Row): nat {
    if !Pending(row) then 0 else if row.attempts >= MAX_ATTEMPTS then 1 else MAX_ATTEMPTS - row.attempts
  }

  /** The sum over the pending events of max(1, 10 - attempts). */
  ghost function Work(rows: Rows): nat {
    Sum(map id | id in rows :: Weight(rows[id]))
  }

  lemma RoundLightens(rows: Rows, r: Round)
    requires r.Possible(rows)
    ensures r.id in Next(rows, r) && Next(rows, r) == rows[r.id := Next(rows, r)[r.id]]
    ensures Weight(Next(rows, r)[r.id]) < Weight(rows[r.id])
  {
  }

  lemma RoundShrinksWork(rows: Rows, r: Round)
    requires r.Possible(rows)
    ensures Work(Next(rows, r)) < Work(rows)
  {
    RoundLightens(rows, r);
    var weights, after := map id | id in rows :: Weight(rows[id]), Next(rows, r);
    assert (map id | id in after :: Weight(after[id])) == weights[r.id := Weight(after[r.id])];
    SumUpdate(weights, r.id, Weight(after[r.id]));
  }

  /** Every claiming round uses up work, so there are never more of them than there is work. */
  lemma {:induction false} RoundsAreBounded(rows: Rows, rounds: seq<Round>)
    requires AllPossible(rows, rounds)
    ensures |rounds| + Work(After(rows, rounds)) <= Work(rows)
  {
    if rounds != [] {
      FrontPossible(rows, rounds);
      RoundsAreBounded(rows, rounds[..|rounds| - 1]);
      RoundShrinksWork(After(rows, rounds[..|rounds| - 1]), rounds[|rounds| - 1]);
    }
  }

  /** As long as an event is pending a claim succeeds, once enough time has passed. */
  lemma SomethingIsClaimable(rows: Rows, id: Uuid, now: Time) returns (first: Uuid)
    requires id in rows && Pending(rows[id])
    requires rows[id].availableAt <= now && (rows[id].lockedAt.Some? ==> rows[id].lockedAt.value < now - 60_000_000_000)
    ensures Candidate(rows, now, now - LOCK_LEASE, {}, first)
  {
    var ids := set j | j in rows && Claimable(rows[j], now, now - LOCK_LEASE);
    assert id in ids;
    first := FirstExists(rows, ids);
  }

  /** No claim is possible any more, however long one waits. */
  ghost predicate Finished(rows: Rows) {
    forall r: Round :: !r.Possible(rows)
  }

  lemma FinishedMeansTerminal(rows: Rows)
    ensures Finished(rows) <==> forall id :: id in rows ==> !Pending(rows[id])
  {
    if id :| id in rows && Pending(rows[id]) {
      var row := rows[id];
      var unlocked := if row.lockedAt.Some? then row.lockedAt.value + LOCK_LEASE + 1 else row.availableAt;
      var now := if row.availableAt < unlocked then unlocked else row.availableAt;
      var first := SomethingIsClaimable(rows, id, now);
      assert Round(first, NIL_UUID, now, {}, Succeeded, now, 0.0).Possible(rows);
    }
  }

  lemma LongerRun(rows: Rows, rounds: seq<Round>, r: Round)
    requires AllPossible(rows, rounds) && r.Possible(After(rows, rounds))
    ensures AllPossible(rows, rounds + [r]) && After(rows, rounds + [r]) == Next(After(rows, rounds), r)
  {
    var longer := rounds + [r];
    assert longer[..|rounds|] == rounds;
    forall i | 0 <= i < |longer| ensures longer[i].Possible(After(rows, longer[..i])) {
      if i < |rounds| {
        assert longer[i] == rounds[i] && longer[..i] == rounds[..i];
      }
    }
  }

  /** A finite set of events is worked off, whatever the handlers return: a run has no more rounds
      than there was work, it cannot go on exactly when every event is processed or failed, and as
      long as it can it leads to a run that cannot. */
  lemma {:induction false} EventsTerminate(rows: Rows, rounds: seq<Round>) returns (whole: seq<Round>)
    requires AllPossible(rows, rounds)
    ensures |rounds| <= Work(rows)
    ensures Finished(After(rows, rounds)) <==>
              forall id :: id in After(rows, rounds) ==> !Pending(After(rows, rounds)[id])
    ensures rounds <= whole && AllPossible(rows, whole) && Finished(After(rows, whole))
    decreases Work(After(rows, rounds))
  {
    RoundsAreBounded(rows, rounds);
    FinishedMeansTerminal(After(rows, rounds));
    if Finished(After(rows, rounds)) {
      whole := rounds;
    } else {
      var r: Round :| r.Possible(After(rows, rounds));
      LongerRun(rows, rounds, r);
      RoundShrinksWork(After(rows, rounds), r);
      whole := EventsTerminate(rows, rounds + [r]);
    }
  }

  // ---------------------------------------------------------------------------------------
  // Bounded overtaking
  // ---------------------------------------------------------------------------------------

  /** What happens around an event that waits: rounds for other events, and new events. */
  datatype Move = Other(round: Round) | Arrival(id: Uuid, row: Row)

  function Moved(rows: Rows, m: Move): Rows {
    match m
    case Other(r) => Next(rows, r)
    case Arrival(id, row) => if id in rows then rows else rows[id := row]
  }

  function AfterMoves(rows: Rows, moves: seq<Move>): Rows {
    if moves == [] then rows else Moved(AfterMoves(rows, moves[..|moves| - 1]), moves[|moves| - 1])
  }

  /** The pending events ahead of `e` in the claim order, ties included. */
  function Ahead(rows: Rows, e: Uuid): set<Uuid>
    requires e in rows
  {
    set id | id in rows && id != e && Pending(rows[id]) && NotAfter(rows[id], rows[e])
  }

  /** `m` is a claim of another event while `e` could be claimed, or an arrival behind `e`. */
  ghost predicate PassesBy(rows: Rows, e: Uuid, since: Time, m: Move)
    requires e in rows
  {
    match m
    case Other(r) =>
      && r.Possible(rows) && r.id != e && e !in r.skipped && since <= r.now <= r.markedAt
    case Arrival(id, row) => id != e && !NotAfter(row, rows[e])
  }

  lemma RoundClearsTheWay(rows: Rows, e: Uuid, since: Time, r: Round)
    requires e in rows && Claimable(rows[e], since, since - LOCK_LEASE) && PassesBy(rows, e, since, Other(r))
    ensures e in Next(rows, r) && Next(rows, r)[e] == rows[e]
    ensures r.id in Ahead(rows, e) && Ahead(Next(rows, r), e) == Ahead(rows, e) - {r.id}
  {
  }

  lemma ArrivalStaysBehind(rows: Rows, e: Uuid, since: Time, m: Move)
    requires e in rows && m.Arrival? && PassesBy(rows, e, since, m)
    ensures e in Moved(rows, m) && Moved(rows, m)[e] == rows[e]
    ensures Ahead(Moved(rows, m), e) == Ahead(rows, e)
  {
  }

  function Rounds(moves: seq<Move>): nat {
    if moves == [] then 0
    else Rounds(moves[..|moves| - 1]) + if moves[|moves| - 1].Other? then 1 else 0
  }

  /** While an event could be claimed and is not, each claim of another event takes one out of
      the events ahead of it, for a retry moves that one behind; so after as many claims as
      there were events ahead, it is next. */
  lemma {:induction false} OvertakingIsBounded(rows: Rows, e: Uuid, since: Time, moves: seq<Move>)
    requires e in rows && Claimable(rows[e], since, since - LOCK_LEASE)
    requires forall i :: 0 <= i < |moves| ==>
               e in AfterMoves(rows, moves[..i]) && PassesBy(AfterMoves(rows, moves[..i]), e, since, moves[i])
    ensures e in AfterMoves(rows, moves) && AfterMoves(rows, moves)[e] == rows[e]
    ensures |Ahead(AfterMoves(rows, moves), e)| + Rounds(moves) == |Ahead(rows, e)|
  {
    if moves != [] {
      var front, last := moves[..|moves| - 1], moves[|moves| - 1];
      forall i | 0 <= i < |front|
        ensures e in AfterMoves(rows, front[..i]) && PassesBy(AfterMoves(rows, front[..i]), e, since, front[i])
      {
        assert front[..i] == moves[..i] && front[i] == moves[i];
      }
      OvertakingIsBounded(rows, e, since, front);
      var before := AfterMoves(rows, front);
      assert moves[..|front|] == front;
      match last
      case Other(r) => RoundClearsTheWay(before, e, since, r);
      case Arrival(_, _) => ArrivalStaysBehind(before, e, since, last);
    }
  }
}
