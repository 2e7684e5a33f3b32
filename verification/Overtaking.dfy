/** How often a waiting event is passed over when any number of workers interleave
    (internal/outbox/processor.go, internal/adapter/repository/postgres/outbox_repository.go). */
module Overtaking {
  import opened Core
  import opened Sums
  import opened OutboxTable
  import opened Backoff
  import opened Workers
  import Drain

  /** A claim that was asked for while the event waited. */
  predicate LateClaim(w: World, since: Time, a: Action) {
    a.Claim? && Enabled(w, a) && w.workers[a.worker].askedAt >= since
  }

  /** `e` goes on waiting: the action leaves its row alone, a late claim does not skip it, and a new
      event comes behind it. */
  ghost predicate LeavesWaiting(w: World, workTimeout: Time, e: Uuid, since: Time, a: Action) {
    && e in w.rows && e in Next(w, workTimeout, a).rows && Next(w, workTimeout, a).rows[e] == w.rows[e]
    && (LateClaim(w, since, a) ==> e !in a.skipped)
    && (a.Insert? ==> !NotAfter(a.row, w.rows[e]))
  }

  /** The events ahead of `e` that no late claim holds. */
  function Rivals(rows: Rows, e: Uuid, since: Time): set<Uuid>
    requires e in rows
  {
    set id | id in Drain.Ahead(rows, e) && !(rows[id].lockedAt.Some? && rows[id].lockedAt.value >= since)
  }

  lemma LateClaimTakesRival(w: World, e: Uuid, since: Time, n: nat, id: Uuid, skipped: set<Uuid>)
    requires Enabled(w, Claim(n, id, skipped)) && id in w.rows && RowInv(w, id)
    requires e in w.rows && e !in skipped && e != id && Claimable(w.rows[e], since, since - LOCK_LEASE)
    requires w.workers[n].askedAt >= since
    ensures Rivals(ClaimStep(w, n, id).rows, e, since) == Rivals(w.rows, e, since) - {id}
    ensures w.rows[id].lockId.None? ==> id in Rivals(w.rows, e, since)
  {
    assert Claimable(w.rows[e], w.workers[n].askedAt, w.workers[n].askedAt - LOCK_LEASE);
    var rows, after := w.rows, ClaimStep(w, n, id).rows;
    forall j ensures j in Rivals(after, e, since) <==> j in Rivals(rows, e, since) - {id} {
    }
  }

  lemma EarlyClaimAddsNoRival(w: World, e: Uuid, since: Time, n: nat, id: Uuid, skipped: set<Uuid>)
    requires Enabled(w, Claim(n, id, skipped)) && id in w.rows
    requires e in w.rows && e != id && w.workers[n].askedAt < since
    ensures Rivals(ClaimStep(w, n, id).rows, e, since) <= Rivals(w.rows, e, since)
  {
  }

  /** A retry moves its event later, and behind `e` if the claim was late. */
  lemma MarkAddsNoRival(w: World, e: Uuid, since: Time, n: nat, at: Time, draw: Draw)
    requires Workers.Inv(w) && Enabled(w, MarkEvent(n, at, draw, true))
    requires e in w.rows && MarkStep(w, n, at, draw).rows[e] == w.rows[e]
    requires w.rows[e].availableAt <= since
    ensures Rivals(MarkStep(w, n, at, draw).rows, e, since) <= Rivals(w.rows, e, since)
  {
    var worker := w.workers[n];
    var mark := MarkFor(worker.result, worker.event.attempts, at, draw);
    if HitsRow(w, n, mark) {
      HitMeansOwned(w, n, mark);
      assert WorkerInv(w, n) && RowInv(w, worker.event.id);
      DelayBounds(worker.event.attempts, draw);
    }
  }

  lemma Subsets<T>(a: set<T>, b: set<T>)
    requires a <= b
    ensures |a| <= |b|
  {
    assert b == a + (b - a);
  }

  lemma SumOneMore(m: map<Uuid, nat>, after: map<Uuid, nat>, id: Uuid, more: nat)
    requires id in m && after == m[id := m[id] + more]
    ensures Sum(after) == Sum(m) + more
  {
    SumUpdate(m, id, m[id] + more);
  }

  lemma SumNewZero(m: map<Uuid, nat>, after: map<Uuid, nat>, id: Uuid)
    requires id !in m && after == m[id := 0]
    ensures Sum(after) == Sum(m)
  {
    SumUpdate(m, id, 0);
  }

  lemma ClaimCounted(w: World, n: nat, id: Uuid, skipped: set<Uuid>)
    requires Enabled(w, Claim(n, id, skipped)) && id in w.rows && RowInv(w, id)
    ensures var counts, more := SupersededCounts(w), Bit(w.rows[id].lockId.Some?);
            id in counts && SupersededCounts(ClaimStep(w, n, id)) == counts[id := counts[id] + more]
  {
  }

  lemma InsertCounted(w: World, workTimeout: Time, id: Uuid, row: Row)
    requires Enabled(w, Insert(id, row))
    ensures SupersededCounts(Next(w, workTimeout, Insert(id, row))) == SupersededCounts(w)[id := 0]
    ensures id !in SupersededCounts(w)
  {
  }

  lemma OthersUncounted(w: World, workTimeout: Time, a: Action)
    requires !Enabled(w, a) || !(a.Claim? || a.Insert?)
    ensures SupersededCounts(Next(w, workTimeout, a)) == SupersededCounts(w)
  {
  }

  predicate Supersedes(w: World, a: Action) {
    a.Claim? && Enabled(w, a) && w.rows[a.id].lockId.Some?
  }

  lemma ClaimGrows(w: World, workTimeout: Time, a: Action)
    requires a.Claim? && Enabled(w, a) && a.id in w.rows && RowInv(w, a.id)
    ensures Sum(SupersededCounts(Next(w, workTimeout, a))) == Sum(SupersededCounts(w)) + Bit(Supersedes(w, a))
  {
    var after := ClaimStep(w, a.worker, a.id);
    assert Next(w, workTimeout, a) == after;
    ClaimCounted(w, a.worker, a.id, a.skipped);
    SumOneMore(SupersededCounts(w), SupersededCounts(after), a.id, Bit(Supersedes(w, a)));
  }

  /** What one action adds to the claims superseded so far. */
  lemma SupersededGrows(w: World, workTimeout: Time, a: Action)
    requires Workers.Inv(w)
    ensures Sum(SupersededCounts(Next(w, workTimeout, a))) == Sum(SupersededCounts(w)) + Bit(Supersedes(w, a))
  {
    if !Enabled(w, a) || !(a.Claim? || a.Insert?) {
      OthersUncounted(w, workTimeout, a);
    } else if a.Claim? {
      assert RowInv(w, a.id);
      ClaimGrows(w, workTimeout, a);
    } else {
      InsertCounted(w, workTimeout, a.id, a.row);
      SumNewZero(SupersededCounts(w), SupersededCounts(Next(w, workTimeout, a)), a.id);
    }
  }

  lemma LateClaimIsPaidFor(w: World, workTimeout: Time, e: Uuid, since: Time, a: Action)
    requires Workers.Inv(w) && LateClaim(w, since, a) && LeavesWaiting(w, workTimeout, e, since, a)
    requires Claimable(w.rows[e], since, since - LOCK_LEASE)
    ensures 1 + |Rivals(Next(w, workTimeout, a).rows, e, since)|
         <= |Rivals(w.rows, e, since)| + Bit(Supersedes(w, a))
  {
    assert RowInv(w, a.id);
    assert a.id != e by {
      assert Next(w, workTimeout, a).rows[a.id].attempts == w.rows[a.id].attempts + 1;
    }
    LateClaimTakesRival(w, e, since, a.worker, a.id, a.skipped);
    var rivals := Rivals(w.rows, e, since);
    if w.rows[a.id].lockId.None? {
      assert |rivals - {a.id}| == |rivals| - 1;
    } else {
      Subsets(rivals - {a.id}, rivals);
    }
  }

  lemma OthersAddNoRival(w: World, workTimeout: Time, e: Uuid, since: Time, a: Action)
    requires Workers.Inv(w) && !LateClaim(w, since, a) && LeavesWaiting(w, workTimeout, e, since, a)
    requires Claimable(w.rows[e], since, since - LOCK_LEASE)
    ensures Rivals(Next(w, workTimeout, a).rows, e, since) <= Rivals(w.rows, e, since)
  {
    if Enabled(w, a) {
      match a
      case Claim(n, id, skipped) =>
        assert Next(w, workTimeout, a).rows[id].attempts == w.rows[id].attempts + 1;
        EarlyClaimAddsNoRival(w, e, since, n, id, skipped);
      case MarkEvent(n, at, draw, effective) =>
        if effective {
          MarkAddsNoRival(w, e, since, n, at, draw);
        }
      case _ =>
    }
  }

  function LateClaims(w: World, workTimeout: Time, actions: seq<Action>, since: Time): nat {
    if actions == [] then 0
    else
      var front, last := actions[..|actions| - 1], actions[|actions| - 1];
      LateClaims(w, workTimeout, front, since) + Bit(LateClaim(RunFrom(w, workTimeout, front), since, last))
  }

  ghost predicate Waiting(w: World, workTimeout: Time, actions: seq<Action>, e: Uuid, since: Time) {
    forall i :: 0 <= i < |actions| ==>
      LeavesWaiting(RunFrom(w, workTimeout, actions[..i]), workTimeout, e, since, actions[i])
  }

  lemma WaitingFront(w: World, workTimeout: Time, actions: seq<Action>, e: Uuid, since: Time)
    requires actions != [] && Waiting(w, workTimeout, actions, e, since)
    ensures var front := actions[..|actions| - 1];
            && Waiting(w, workTimeout, front, e, since)
            && LeavesWaiting(RunFrom(w, workTimeout, front), workTimeout, e, since, actions[|actions| - 1])
  {
    var front := actions[..|actions| - 1];
    forall i | 0 <= i < |front|
      ensures LeavesWaiting(RunFrom(w, workTimeout, front[..i]), workTimeout, e, since, front[i])
    {
      assert front[..i] == actions[..i] && front[i] == actions[i];
    }
  }

  lemma {:induction false} RivalsPay(w: World, workTimeout: Time, actions: seq<Action>, e: Uuid, since: Time)
    requires Workers.Inv(w) && e in w.rows && Claimable(w.rows[e], since, since - LOCK_LEASE)
    requires Waiting(w, workTimeout, actions, e, since)
    ensures var late := RunFrom(w, workTimeout, actions);
            && Workers.Inv(late) && e in late.rows && late.rows[e] == w.rows[e]
            && LateClaims(w, workTimeout, actions, since) + |Rivals(late.rows, e, since)| + Sum(SupersededCounts(w))
                 <= |Rivals(w.rows, e, since)| + Sum(SupersededCounts(late))
  {
    if actions != [] {
      var front, last := actions[..|actions| - 1], actions[|actions| - 1];
      WaitingFront(w, workTimeout, actions, e, since);
      RivalsPay(w, workTimeout, front, e, since);
      var before := RunFrom(w, workTimeout, front);
      NextKeepsInv(before, workTimeout, last);
      SupersededGrows(before, workTimeout, last);
      if LateClaim(before, since, last) {
        LateClaimIsPaidFor(before, workTimeout, e, since, last);
      } else {
        OthersAddNoRival(before, workTimeout, e, since, last);
        Subsets(Rivals(Next(before, workTimeout, last).rows, e, since), Rivals(before.rows, e, since));
      }
    }
  }

  /** However the workers interleave, crash and lose leases: while an event could be claimed and is
      not, the claims asked for meanwhile are at most the events ahead of it and the claims that are
      superseded meanwhile. */
  lemma {:induction false} OvertakingIsBounded(
      workTimeout: Time, before: seq<Action>, actions: seq<Action>, e: Uuid, since: Time)
    requires e in Run(workTimeout, before).rows
    requires Claimable(Run(workTimeout, before).rows[e], since, since - LOCK_LEASE)
    requires Waiting(Run(workTimeout, before), workTimeout, actions, e, since)
    ensures var w := Run(workTimeout, before);
            var late := RunFrom(w, workTimeout, actions);
            LateClaims(w, workTimeout, actions, since)
              <= |Drain.Ahead(w.rows, e)| + (Sum(SupersededCounts(late)) - Sum(SupersededCounts(w)))
  {
    var w := Run(workTimeout, before);
    RunKeepsInv(workTimeout, before);
    RivalsPay(w, workTimeout, actions, e, since);
    Subsets(Rivals(w.rows, e, since), Drain.Ahead(w.rows, e));
  }
}
