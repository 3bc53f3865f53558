/** How an idempotency row that already exists answers a later request for the same key. */
module Idempotency {
  import opened Wrappers
  import opened Ledger

  /** Lifetime of a pending row, in seconds. */
  const TTL: int := 300

  /** What the client is told; the HTTP text around it is not modelled. */
  datatype Answer =
    | Replay(snapshot: string)
    | PreviouslyFailed(errorCode: string)
    | Conflict
    | InProgress
    | ExpiredPending

  /** The replay lookup made before any work that only a new request needs. */
  function Precheck(row: KeyRow, hash: string, now: int): Answer {
    if row.hash != hash then Conflict
    else if row.status.Completed? then Replay(row.status.snapshot)
    else if row.status.Failed? then PreviouslyFailed(row.status.errorCode)
    else if row.expiresAt <= now then ExpiredPending
    else InProgress
  }

  datatype Acquire = Acquired | AlreadyCompleted(row: KeyRow) | AlreadyFailed(row: KeyRow) | Busy | Expired
  datatype AcquireError = HashConflict

  /** acquire_idempotency_slot when its insert did nothing. */
  function AcquireExisting(row: KeyRow, hash: string, now: int): Result<Acquire, AcquireError> {
    if row.hash != hash then Err(HashConflict)
    else match row.status
      case Completed(_) => Ok(AlreadyCompleted(row))
      case Failed(_) => Ok(AlreadyFailed(row))
      case Pending => if row.expiresAt <= now then Ok(Expired) else Ok(Busy)
  }

  /** How Transaction 1 turns a slot it did not acquire into an answer. */
  function RaceAnswer(r: Result<Acquire, AcquireError>): Option<Answer> {
    match r
    case Err(_) => Some(Conflict)
    case Ok(Acquired) => None
    case Ok(AlreadyCompleted(row)) =>
      if row.status.Completed? then Some(Replay(row.status.snapshot)) else None
    case Ok(AlreadyFailed(row)) =>
      if row.status.Failed? then Some(PreviouslyFailed(row.status.errorCode)) else None
    case Ok(Busy) => Some(InProgress)
    case Ok(Expired) => Some(ExpiredPending)
  }

  /** The lookup and the race window can never disagree about a row. */
  lemma RaceAgreesWithPrecheck(row: KeyRow, hash: string, now: int)
    ensures RaceAnswer(AcquireExisting(row, hash, now)) == Some(Precheck(row, hash, now))
  {
  }
}
