/** The table `outbox_events` and its statements
    (internal/adapter/repository/postgres/outbox_repository.go). */
module OutboxTable {
  import opened Core

  /** A JSON payload as the dispatcher decodes it; `{}` decodes to the zero values. */
  datatype Payload = Malformed | Object(verificationId: Uuid, recipient: string)

  const EMPTY_PAYLOAD := Object(NIL_UUID, "")

  datatype Row = Row(
    eventType: string, payload: Payload,
    createdAt: Time, availableAt: Time,
    lockedAt: Option<Time>, lockId: Option<Uuid>,
    processedAt: Option<Time>, failedAt: Option<Time>,
    attempts: nat, lastError: Option<string>)

  type Rows = map<Uuid, Row>

  /** What a claim hands to the worker. */
  datatype Event = Event(
    id: Uuid, eventType: string, payload: Payload, createdAt: Time, availableAt: Time, attempts: nat)

  const MAX_ERROR := 1000

  function Left(s: string, n: nat): string {
    if |s| <= n then s else s[..n]
  }

  predicate Pending(row: Row) {
    row.processedAt.None? && row.failedAt.None?
  }

  predicate Claimable(row: Row, now: Time, lockExpiredBefore: Time) {
    && Pending(row) && row.availableAt <= now
    && (row.lockedAt.None? || row.lockedAt.value < lockExpiredBefore)
  }

  /** `ORDER BY available_at, created_at`, ties included. */
  predicate NotAfter(a: Row, b: Row) {
    a.availableAt < b.availableAt || (a.availableAt == b.availableAt && a.createdAt <= b.createdAt)
  }

  /** `id` may be claimed: it is first among the claimable rows no other statement has locked
      at this moment. */
  predicate Candidate(rows: Rows, now: Time, lockExpiredBefore: Time, skipped: set<Uuid>, id: Uuid) {
    && id in rows && id !in skipped && Claimable(rows[id], now, lockExpiredBefore)
    && forall j :: j in rows && j !in skipped && Claimable(rows[j], now, lockExpiredBefore) ==>
                     NotAfter(rows[id], rows[j])
  }

  function Claimed(row: Row, lockId: Uuid, now: Time): Row {
    row.(lockId := Some(lockId), lockedAt := Some(now), attempts := row.attempts + 1, lastError := None)
  }

  function EventOf(id: Uuid, row: Row): Event {
    Event(id, row.eventType, row.payload, row.createdAt, row.availableAt, row.attempts)
  }

  /** The three marks.  Each names the event and the lock it was claimed under. */
  datatype Mark =
    | Processed(at: Time)
    | RetryAt(at: Time, error: string)
    | FailedFor(at: Time, error: string)

  /** The WHERE clause of a mark.  Only the retry tests `failed_at`. */
  predicate Matches(row: Row, lockId: Uuid, mark: Mark) {
    && row.lockId == Some(lockId) && row.processedAt.None?
    && (mark.RetryAt? ==> row.failedAt.None?)
  }

  function MarkedRow(row: Row, mark: Mark): Row {
    match mark
    case Processed(at) =>
      row.(processedAt := Some(at), lockedAt := None, lockId := None, lastError := None, payload := EMPTY_PAYLOAD)
    case RetryAt(at, error) =>
      row.(lockedAt := None, lockId := None, availableAt := at, lastError := Some(Left(error, MAX_ERROR)))
    case FailedFor(at, error) =>
      row.(lockedAt := None, lockId := None, failedAt := Some(at), lastError := Some(Left(error, MAX_ERROR)))
  }

  function Marked(rows: Rows, id: Uuid, lockId: Uuid, mark: Mark): Rows {
    if id in rows && Matches(rows[id], lockId, mark) then rows[id := MarkedRow(rows[id], mark)] else rows
  }

  datatype ClaimReply = Got(event: Event) | NoEvents | ClaimFailed

  datatype MarkReply = Done | LeaseLost | MarkFailed

  function MarkAnswer(rows: Rows, id: Uuid, lockId: Uuid, mark: Mark, fault: Fault): MarkReply {
    if fault.FailsAt? then MarkFailed
    else if id !in rows || !Matches(rows[id], lockId, mark) then LeaseLost
    else if fault.CommitUnacked? then MarkFailed
    else Done
  }

  lemma {:induction false} FirstExists(rows: Rows, ids: set<Uuid>) returns (first: Uuid)
    requires ids != {} && ids <= rows.Keys
    ensures first in ids && forall j :: j in ids ==> NotAfter(rows[first], rows[j])
    decreases |ids|
  {
    var id :| id in ids;
    if ids == {id} {
      first := id;
    } else {
      var other := FirstExists(rows, ids - {id});
      first := if NotAfter(rows[id], rows[other]) then id else other;
    }
  }

  /** The claim took `id`, a candidate, and nothing else changed. */
  ghost predicate Taken(
      rows: Rows, lockId: Uuid, now: Time, lockExpiredBefore: Time, skipped: set<Uuid>, id: Uuid, after: Rows)
  {
    && Candidate(rows, now, lockExpiredBefore, skipped, id)
    && after == rows[id := Claimed(rows[id], lockId, now)]
  }

  ghost predicate TookSome(
      rows: Rows, lockId: Uuid, now: Time, lockExpiredBefore: Time, skipped: set<Uuid>, after: Rows)
  {
    exists id :: Taken(rows, lockId, now, lockExpiredBefore, skipped, id, after)
  }

  ghost predicate NothingClaimable(rows: Rows, now: Time, lockExpiredBefore: Time, skipped: set<Uuid>) {
    forall id :: id in rows && id !in skipped ==> !Claimable(rows[id], now, lockExpiredBefore)
  }

  /** The row is there, under this lock, and not processed. */
  predicate HeldUnder(rows: Rows, id: Uuid, lockId: Uuid) {
    id in rows && rows[id].lockId == Some(lockId) && rows[id].processedAt.None?
  }

  class OutboxRepository {
    var rows: Rows

    constructor ()
      ensures rows == map[]
    {
      rows := map[];
    }

    /** `skipped` are the rows other statements have locked at this moment. */
    method ClaimNext(lockId: Uuid, now: Time, lockExpiredBefore: Time, skipped: set<Uuid>, fault: Fault)
      returns (reply: ClaimReply)
      modifies this
      ensures reply.Got? ==>
                && Taken(old(rows), lockId, now, lockExpiredBefore, skipped, reply.event.id, rows)
                && reply.event == EventOf(reply.event.id, rows[reply.event.id])
                && var was := old(rows)[reply.event.id];
                && rows == old(rows)[reply.event.id := was.(
                     lockId := Some(lockId), lockedAt := Some(now), attempts := was.attempts + 1, lastError := None)]
                && reply.event == Event(reply.event.id, was.eventType, was.payload, was.createdAt, was.availableAt,
                                        was.attempts + 1)
      ensures reply.NoEvents? ==> rows == old(rows) && NothingClaimable(rows, now, lockExpiredBefore, skipped)
      ensures reply.ClaimFailed? && fault.FailsAt? ==> rows == old(rows)
      ensures reply.ClaimFailed? && !fault.FailsAt? ==>
                && fault.CommitUnacked?
                && TookSome(old(rows), lockId, now, lockExpiredBefore, skipped, rows)
      ensures fault.FailsAt? ==> reply.ClaimFailed?
      ensures fault.CommitUnacked? ==> !reply.Got?
    {
      if fault.FailsAt? {
        return ClaimFailed;
      }
      var ids := set id | id in rows && id !in skipped && Claimable(rows[id], now, lockExpiredBefore);
      if ids == {} {
        assert forall id :: id in rows && id !in skipped && Claimable(rows[id], now, lockExpiredBefore) ==> id in ids;
        return NoEvents;
      }
      ghost var first := FirstExists(rows, ids);
      assert Candidate(rows, now, lockExpiredBefore, skipped, first);
      var id :| id in rows && Candidate(rows, now, lockExpiredBefore, skipped, id);
      rows := rows[id := Claimed(rows[id], lockId, now)];
      assert Taken(old(rows), lockId, now, lockExpiredBefore, skipped, id, rows);
      return if fault.CommitUnacked? then ClaimFailed else Got(EventOf(id, rows[id]));
    }

    method MarkProcessed(id: Uuid, lockId: Uuid, processedAt: Time, fault: Fault) returns (reply: MarkReply)
      modifies this
      ensures reply == MarkAnswer(old(rows), id, lockId, Processed(processedAt), fault)
      ensures rows == if fault.FailsAt? then old(rows) else Marked(old(rows), id, lockId, Processed(processedAt))
      ensures reply.Done? ==> HeldUnder(old(rows), id, lockId) && rows == old(rows)[id := old(rows)[id].(
                processedAt := Some(processedAt), lockedAt := None, lockId := None, lastError := None,
                payload := Object(NIL_UUID, ""))]
      ensures reply.LeaseLost? ==> rows == old(rows) && !HeldUnder(old(rows), id, lockId)
    {
      if fault.FailsAt? {
        return MarkFailed;
      }
      if id !in rows || rows[id].lockId != Some(lockId) || rows[id].processedAt.Some? {
        return LeaseLost;
      }
      rows := rows[id := rows[id].(
        processedAt := Some(processedAt), lockedAt := None, lockId := None, lastError := None,
        payload := EMPTY_PAYLOAD)];
      return if fault.CommitUnacked? then MarkFailed else Done;
    }

    method ScheduleRetry(id: Uuid, lockId: Uuid, availableAt: Time, lastError: string, fault: Fault)
      returns (reply: MarkReply)
      modifies this
      ensures reply == MarkAnswer(old(rows), id, lockId, RetryAt(availableAt, lastError), fault)
      ensures rows == if fault.FailsAt? then old(rows) else Marked(old(rows), id, lockId, RetryAt(availableAt, lastError))
      ensures reply.Done? ==> HeldUnder(old(rows), id, lockId) && rows == old(rows)[id := old(rows)[id].(
                availableAt := availableAt, lockedAt := None, lockId := None,
                lastError := Some(if |lastError| <= 1000 then lastError else lastError[..1000]))]
      ensures reply.LeaseLost? ==>
                rows == old(rows) && (!HeldUnder(old(rows), id, lockId) || old(rows)[id].failedAt.Some?)
    {
      if fault.FailsAt? {
        return MarkFailed;
      }
      if id !in rows || rows[id].lockId != Some(lockId) || rows[id].processedAt.Some? || rows[id].failedAt.Some? {
        return LeaseLost;
      }
      rows := rows[id := rows[id].(
        lockedAt := None, lockId := None, availableAt := availableAt,
        lastError := Some(Left(lastError, MAX_ERROR)))];
      return if fault.CommitUnacked? then MarkFailed else Done;
    }

    method MarkAsFailed(id: Uuid, lockId: Uuid, failedAt: Time, lastError: string, fault: Fault)
      returns (reply: MarkReply)
      modifies this
      ensures reply == MarkAnswer(old(rows), id, lockId, FailedFor(failedAt, lastError), fault)
      ensures rows == if fault.FailsAt? then old(rows) else Marked(old(rows), id, lockId, FailedFor(failedAt, lastError))
      ensures reply.Done? ==> HeldUnder(old(rows), id, lockId) && rows == old(rows)[id := old(rows)[id].(
                failedAt := Some(failedAt), lockedAt := None, lockId := None,
                lastError := Some(if |lastError| <= 1000 then lastError else lastError[..1000]))]
      ensures reply.LeaseLost? ==> rows == old(rows) && !HeldUnder(old(rows), id, lockId)
    {
      if fault.FailsAt? {
        return MarkFailed;
      }
      if id !in rows || rows[id].lockId != Some(lockId) || rows[id].processedAt.Some? {
        return LeaseLost;
      }
      rows := rows[id := rows[id].(
        lockedAt := None, lockId := None, failedAt := Some(failedAt),
        lastError := Some(Left(lastError, MAX_ERROR)))];
      return if fault.CommitUnacked? then MarkFailed else Done;
    }
  }
}
