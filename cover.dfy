/**
 * The Somfy cover entity: the open percentage and motion flags shown for one
 * blind, updated optimistically by commands and authoritatively by polls.
 * Every method is proved to change the fields exactly as `Motion.Step` says
 * for the event it carries out.
 */
module Cover {
  import opened Options
  import opened Scale
  import opened Motion
  import Transport

  class SomfyCover {
    /** The client the cover sends its commands and status reads through. */
    const client: Transport.BlindClient

    var position: Option<int>
    var previousPosition: Option<int>
    var isOpening: Option<bool>
    var isClosing: Option<bool>

    /** The cover's fields as a value. */
    function State(): MotionState
      reads this
    {
      MotionState(position, previousPosition, isOpening, isClosing)
    }

    /** The object invariant: the fields form a reachable motion state. */
    ghost predicate Valid()
      reads this
    {
      Inv(State())
    }

    /** A new cover knows neither its position nor its motion. */
    constructor (client: Transport.BlindClient)
      ensures Valid()
      ensures this.client == client
      ensures State() == Initial
    {
      this.client := client;
      position := None;
      previousPosition := None;
      isClosing := None;
      isOpening := None;
    }

    /**
     * The open percentage last read from the blind, if any. When a pre-poll
     * position is remembered, the current one is known and differs from it.
     */
    function CurrentCoverPosition(): (pos: Option<int>)
      reads this
      ensures Valid() && previousPosition.Some? ==> pos.Some? && pos != previousPosition
    {
      position
    }

    /** Whether the cover is closed: decided by the position alone, whatever the flags say. */
    function IsClosed(): (closed: bool)
      reads this
      ensures closed <==> CurrentCoverPosition() == Some(0)
    {
      position == Some(0)
    }

    /** Whether the cover is believed to be opening (unknown until the first command or settled poll). */
    function IsOpening(): (opening: Option<bool>)
      reads this
      ensures Valid() ==> (opening == Some(true) ==> isClosing == Some(false))
      ensures Valid() ==> (opening.None? <==> isClosing.None?)
    {
      isOpening
    }

    /** Whether the cover is believed to be closing (unknown until the first command or settled poll). */
    function IsClosing(): (closing: Option<bool>)
      reads this
      ensures Valid() ==> (closing == Some(true) ==> isOpening == Some(false))
      ensures Valid() ==> (closing.None? <==> isOpening.None?)
    {
      isClosing
    }

    /** Asks the blind to open; only once the call has gone through is the cover marked opening. */
    method OpenCover() returns (ok: bool)
      requires Valid()
      modifies this, client`requests
      ensures Valid()
      ensures client.requests == old(client.requests) + [Transport.Request.Up]
      ensures ok == client.online
      ensures State() == Step(old(State()), Open(ok))
    {
      ok := client.Up();
      if ok {
        isClosing := Some(false);
        isOpening := Some(true);
      }
    }

    /** Asks the blind to close; only once the call has gone through is the cover marked closing. */
    method CloseCover() returns (ok: bool)
      requires Valid()
      modifies this, client`requests
      ensures Valid()
      ensures client.requests == old(client.requests) + [Transport.Request.Down]
      ensures ok == client.online
      ensures State() == Step(old(State()), Close(ok))
    {
      ok := client.Down();
      if ok {
        isClosing := Some(true);
        isOpening := Some(false);
      }
    }

    /** Asks the blind to stop; only once the call has gone through are both flags cleared. */
    method StopCover() returns (ok: bool)
      requires Valid()
      modifies this, client`requests
      ensures Valid()
      ensures client.requests == old(client.requests) + [Transport.Request.Stop]
      ensures ok == client.online
      ensures State() == Step(old(State()), Stop(ok))
    {
      ok := client.Stop();
      if ok {
        isClosing := Some(false);
        isOpening := Some(false);
      }
    }

    /**
     * Reads the blind's status. A reading without error replaces the position
     * and settles the motion when it repeats the pre-poll position; no status,
     * an error status or a failed call leaves every field as it was.
     */
    method Update() returns (ok: bool)
      requires Valid()
      modifies this, client`requests
      ensures Valid()
      ensures client.requests == old(client.requests) + [Transport.Request.GetStatus]
      ensures ok == client.online
      ensures State() == Step(old(State()), Poll(if ok then client.report else None))
    {
      var status;
      ok, status := client.GetStatus();
      if status.Some? && status.value.error.None? {
        previousPosition := position;
        position := Some(Invert(status.value.position));
        if previousPosition.Some? && position == previousPosition {
          isClosing := Some(false);
          isOpening := Some(false);
          previousPosition := None;
        }
      }
    }

    /**
     * Sends the blind to open percentage `target` (native `Invert(target)`), then
     * predicts the direction from the position held before the call, an unknown
     * one counting as 0.
     */
    method SetCoverPosition(target: int) returns (ok: bool)
      requires Valid()
      modifies this, client`requests
      ensures Valid()
      ensures client.requests == old(client.requests) + [Transport.Request.Move(Invert(target))]
      ensures ok == client.online
      ensures State() == Step(old(State()), SetPosition(target, ok))
    {
      var current := position.GetOr(0);
      ok := client.Move(Invert(target));
      if ok {
        if target > current {
          isOpening := Some(true);
          isClosing := Some(false);
        } else if target < current {
          isOpening := Some(false);
          isClosing := Some(true);
        } else {
          isOpening := Some(false);
          isClosing := Some(false);
        }
      }
    }
  }
}
