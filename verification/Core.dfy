/** Vocabulary shared by every part of the model: optional values, byte strings,
    identifiers, time, and the faults a database transaction may suffer. */
module Core {

  datatype Option<+T> = None | Some(value: T)

  newtype byte = x: int | 0 <= x < 256

  type Bytes = seq<byte>

  /** A UUID is its 16 octets. */
  type Uuid = octets: Bytes | |octets| == 16 witness [0, 0, 0, 0, 0, 0, 0, 0, 0, 0, 0, 0, 0, 0, 0, 0]

  const NIL_UUID: Uuid := [0, 0, 0, 0, 0, 0, 0, 0, 0, 0, 0, 0, 0, 0, 0, 0]

  /** The digest of a token, as the tables store it. */
  type Hash = Bytes

  /** Instants and durations, in nanoseconds like the Go types they stand for. */
  type Time = int

  const SECOND: Time := 1_000_000_000
  const MINUTE: Time := 60 * SECOND
  const HOUR: Time := 60 * MINUTE

  /** What goes wrong in one transaction.  Statements are numbered from 0, `Begin` first and
      `Commit` last; a statement that fails makes the deferred rollback undo everything.  An
      unacknowledged commit takes effect although the caller is told that it failed. */
  datatype Fault = Healthy | FailsAt(statement: nat) | CommitUnacked
}
