/**
 * The blind's transport client, seen only through the interface the cover
 * uses. Each call is recorded in `requests`; whether it goes through is
 * decided by the environment through `online`, and what `GetStatus` returns
 * while online is the environment's `report`. A call that does not go through
 * stands for the client raising an error to its caller.
 */
module Transport {
  import opened Options

  /** A status reply: the native position and the error the device attached, if any. */
  datatype Status = Status(position: int, error: Option<string>)

  /** The calls the cover makes on its client. */
  datatype Request = Up | Down | Stop | Move(native: int) | GetStatus

  class BlindClient {
    /** Every call made on this client, oldest first. */
    var requests: seq<Request>
    /** Whether calls currently go through. */
    var online: bool
    /** What a status read returns while online: nothing, or a status. */
    var report: Option<Status>

    constructor (online: bool, report: Option<Status>)
      ensures requests == [] && this.online == online && this.report == report
    {
      this.requests := [];
      this.online := online;
      this.report := report;
    }

    /** Starts opening the blind. */
    method Up() returns (ok: bool)
      modifies this`requests
      ensures requests == old(requests) + [Request.Up]
      ensures ok == online
    {
      requests := requests + [Request.Up];
      ok := online;
    }

    /** Starts closing the blind. */
    method Down() returns (ok: bool)
      modifies this`requests
      ensures requests == old(requests) + [Request.Down]
      ensures ok == online
    {
      requests := requests + [Request.Down];
      ok := online;
    }

    /** Halts the blind where it is. */
    method Stop() returns (ok: bool)
      modifies this`requests
      ensures requests == old(requests) + [Request.Stop]
      ensures ok == online
    {
      requests := requests + [Request.Stop];
      ok := online;
    }

    /** Sends the blind to a native position. */
    method Move(native: int) returns (ok: bool)
      modifies this`requests
      ensures requests == old(requests) + [Request.Move(native)]
      ensures ok == online
    {
      requests := requests + [Request.Move(native)];
      ok := online;
    }

    /** Reads the blind's status; a failed call yields no status. */
    method GetStatus() returns (ok: bool, status: Option<Status>)
      modifies this`requests
      ensures requests == old(requests) + [Request.GetStatus]
      ensures ok == online
      ensures status == if ok then report else None
    {
      requests := requests + [Request.GetStatus];
      ok := online;
      status := if online then report else None;
    }
  }
}
