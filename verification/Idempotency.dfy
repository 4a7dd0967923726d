// The five-case decision for a submitted prompt id.
module Idempotency {
  import opened Wrappers
  import opened AutoId
  import opened Rows

  datatype Decision = InsertNew | Conflict | ReturnExisting | AwaitExisting | Reenqueue

  function Check(existing: Option<Request>, hash: Digest): Decision {
    match existing
    case None => InsertNew
    case Some(row) =>
      if row.textHash != hash then Conflict
      else
        match row.status
        case ReqCompleted => ReturnExisting
        case ReqReceived => AwaitExisting
        case ReqQueued => AwaitExisting
        case ReqProcessing => AwaitExisting
        case ReqFailed => Reenqueue
  }
}
