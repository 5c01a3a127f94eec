/**
 * The cover's position and motion state as a value, and the effect of each
 * thing that can happen to it. The blind has no completion event: the only
 * way the cover learns that a motion has ended is two consecutive status
 * readings with the same position.
 */
module Motion {
  import opened Options
  import opened Scale
  import Transport

  /**
   * The four fields the cover keeps. `position` is the open percentage last
   * read from the blind; `previousPosition` the pre-poll position of the last
   * good reading, unknown when that reading repeated it; the two flags the
   * believed direction of motion.
   * All four start unknown.
   */
  datatype MotionState = MotionState(
    position: Option<int>,
    previousPosition: Option<int>,
    isOpening: Option<bool>,
    isClosing: Option<bool>)

  /** The state of a newly created cover. */
  const Initial: MotionState := MotionState(None, None, None, None)

  /**
   * What can happen to the cover. For a command, `delivered` says whether the
   * client call went through; `Poll` carries what the status read produced
   * (nothing when the client returned no status or failed).
   */
  datatype Event =
    | Open(delivered: bool)
    | Close(delivered: bool)
    | Stop(delivered: bool)
    | SetPosition(target: int, delivered: bool)
    | Poll(reply: Option<Transport.Status>)
  {
    /** An event that cannot change the state: a command that did not go through, or a poll without a usable status. */
    predicate IsIneffective() {
      match this
      case Poll(reply) => reply.None? || reply.value.error.Some?
      case _ => !delivered
    }
  }

  /**
   * The state every reachable cover is in: when one flag is true the other is
   * false, so the two are never both true; they are known or unknown together;
   * and a remembered previous position always differs from a known current one.
   */
  predicate Inv(s: MotionState) {
    && (s.isOpening == Some(true) ==> s.isClosing == Some(false))
    && (s.isClosing == Some(true) ==> s.isOpening == Some(false))
    && (s.isOpening.None? <==> s.isClosing.None?)
    && (s.previousPosition.Some? ==> s.position.Some? && s.previousPosition != s.position)
  }

  /** The flags after a delivered command: set the one for the direction, clear the other. */
  function Moving(s: MotionState, opening: bool, closing: bool): MotionState {
    s.(isOpening := Some(opening), isClosing := Some(closing))
  }

  /**
   * A successful reading of native position `native`: the position becomes its
   * inversion, and the pre-poll position is remembered, unless it equals the
   * new one, in which case the motion is over.
   */
  function Observe(s: MotionState, native: int): MotionState {
    var previous := s.position;
    var now := Invert(native);
    if previous.Some? && previous.value == now then
      MotionState(Some(now), None, Some(false), Some(false))
    else
      MotionState(Some(now), previous, s.isOpening, s.isClosing)
  }

  /** The state after one event. */
  function Step(s: MotionState, e: Event): MotionState {
    match e
    case Open(delivered) => if delivered then Moving(s, true, false) else s
    case Close(delivered) => if delivered then Moving(s, false, true) else s
    case Stop(delivered) => if delivered then Moving(s, false, false) else s
    case SetPosition(target, delivered) =>
      var current := s.position.GetOr(0);
      if !delivered then s
      else if target > current then Moving(s, true, false)
      else if target < current then Moving(s, false, true)
      else Moving(s, false, false)
    case Poll(reply) =>
      if reply.Some? && reply.value.error.None? then Observe(s, reply.value.position) else s
  }

  /** The state after a sequence of events, oldest first. */
  function Run(s: MotionState, events: seq<Event>): MotionState
    decreases |events|
  {
    if events == [] then s else Run(Step(s, events[0]), events[1..])
  }

  // ----- single events -----

  /** Every event keeps the invariant; in particular no event leaves both flags true. */
  lemma StepKeepsInv(s: MotionState, e: Event)
    requires Inv(s)
    ensures Inv(Step(s, e))
    ensures Step(s, e).isOpening != Some(true) || Step(s, e).isClosing != Some(true)
  {
  }

  /** A delivered open marks the cover opening and not closing; the position is untouched. */
  lemma OpenOutcome(s: MotionState, delivered: bool)
    ensures var t := Step(s, Open(delivered));
      && t.position == s.position && t.previousPosition == s.previousPosition
      && (delivered ==> t.isOpening == Some(true) && t.isClosing == Some(false))
      && (!delivered ==> t == s)
  {
  }

  /** A delivered close marks the cover closing and not opening; the position is untouched. */
  lemma CloseOutcome(s: MotionState, delivered: bool)
    ensures var t := Step(s, Close(delivered));
      && t.position == s.position && t.previousPosition == s.previousPosition
      && (delivered ==> t.isOpening == Some(false) && t.isClosing == Some(true))
      && (!delivered ==> t == s)
  {
  }

  /** A delivered stop clears both flags whatever they were; the position is untouched. */
  lemma StopOutcome(s: MotionState, delivered: bool)
    ensures var t := Step(s, Stop(delivered));
      && t.position == s.position && t.previousPosition == s.previousPosition
      && (delivered ==> t.isOpening == Some(false) && t.isClosing == Some(false))
      && (!delivered ==> t == s)
  {
  }

  /**
   * A delivered move to `target` predicts its direction from the current
   * position, an unknown one counting as 0: opening exactly when the target is
   * above it, closing exactly when below, neither when equal.
   */
  lemma SetPositionOutcome(s: MotionState, target: int, delivered: bool)
    ensures var t := Step(s, SetPosition(target, delivered));
      var current := if s.position.Some? then s.position.value else 0;
      && t.position == s.position && t.previousPosition == s.previousPosition
      && (delivered ==> t.isOpening == Some(target > current) && t.isClosing == Some(target < current))
      && (delivered && target == current ==> t.isOpening == Some(false) && t.isClosing == Some(false))
      && (!delivered ==> t == s)
  {
  }

  /** A poll without a status, or with a status carrying an error, changes nothing. */
  lemma FailedPollChangesNothing(s: MotionState, reply: Option<Transport.Status>)
    requires reply.None? || reply.value.error.Some?
    ensures Step(s, Poll(reply)) == s
  {
  }

  /**
   * A good reading sets the position to the inverted native value. If it equals
   * the known pre-poll position, motion is over: both flags false and the
   * previous position forgotten. Otherwise the flags stand and the pre-poll
   * position is remembered.
   */
  lemma PollOutcome(s: MotionState, status: Transport.Status)
    requires status.error.None?
    ensures var t := Step(s, Poll(Some(status)));
      var now := 100 - status.position;
      && t.position == Some(now)
      && (s.position == Some(now) ==>
            t.isOpening == Some(false) && t.isClosing == Some(false) && t.previousPosition == None)
      && (s.position != Some(now) ==>
            t.isOpening == s.isOpening && t.isClosing == s.isClosing && t.previousPosition == s.position)
  {
  }

  /** A good reading of a native value in 0..100 leaves the position in 0..100. */
  lemma PollStaysInRange(s: MotionState, status: Transport.Status)
    requires status.error.None? && 0 <= status.position <= 100
    ensures var t := Step(s, Poll(Some(status)));
      t.position.Some? && 0 <= t.position.value <= 100
  {
  }

  /**
   * Two consecutive good readings of the same native value end any motion,
   * whatever the state before them.
   */
  lemma RepeatedReadingSettles(s: MotionState, status: Transport.Status)
    requires status.error.None?
    ensures var t := Run(s, [Poll(Some(status)), Poll(Some(status))]);
      && t == MotionState(Some(Invert(status.position)), None, Some(false), Some(false))
  {
    var e := Poll(Some(status));
    var once := Step(s, e);
    assert [e, e][1..] == [e] && [e][1..] == [];
    assert Run(once, [e]) == Run(Step(once, e), []);
  }

  /**
   * Round trip: moving to `target` and then reading back the native value the
   * move sent gives position `target`, and the cover is closed exactly when
   * `target` is 0.
   */
  lemma MoveThenMatchingReading(s: MotionState, target: int)
    ensures var t := Run(s, [SetPosition(target, true), Poll(Some(Transport.Status(Invert(target), None)))]);
      t.position == Some(target) && (t.position == Some(0) <==> target == 0)
  {
    var move := SetPosition(target, true);
    var poll := Poll(Some(Transport.Status(Invert(target), None)));
    var moved := Step(s, move);
    assert [move, poll][1..] == [poll] && [poll][1..] == [];
    assert Run(moved, [poll]) == Run(Step(moved, poll), []);
    InvertRoundTrip(target);
  }

  // ----- sequences of events -----

  /** Every sequence of events keeps the invariant. */
  lemma {:induction false} RunKeepsInv(s: MotionState, events: seq<Event>)
    requires Inv(s)
    ensures Inv(Run(s, events))
    decreases |events|
  {
    if events != [] {
      StepKeepsInv(s, events[0]);
      RunKeepsInv(Step(s, events[0]), events[1..]);
    }
  }

  /** Every state a cover can reach from its initial state satisfies the invariant. */
  lemma ReachableKeepsInv(events: seq<Event>)
    ensures Inv(Run(Initial, events))
    ensures Run(Initial, events).isOpening != Some(true) || Run(Initial, events).isClosing != Some(true)
  {
    RunKeepsInv(Initial, events);
  }

  /** Events that cannot take effect, in any number, leave the state exactly as it was. */
  lemma {:induction false} IneffectiveEventsChangeNothing(s: MotionState, events: seq<Event>)
    requires forall i | 0 <= i < |events| :: events[i].IsIneffective()
    ensures Run(s, events) == s
    decreases |events|
  {
    if events != [] {
      assert events[0].IsIneffective();
      IneffectiveEventsChangeNothing(s, events[1..]);
      assert Step(s, events[0]) == s;
    }
  }

  /** Commands never touch the position: only polls move it. */
  lemma {:induction false} CommandsKeepPosition(s: MotionState, events: seq<Event>)
    requires forall i | 0 <= i < |events| :: !events[i].Poll?
    ensures Run(s, events).position == s.position
    ensures Run(s, events).previousPosition == s.previousPosition
    decreases |events|
  {
    if events != [] {
      var t := Step(s, events[0]);
      assert t.position == s.position && t.previousPosition == s.previousPosition;
      CommandsKeepPosition(t, events[1..]);
    }
  }

  /** A good reading of an in-range native value. */
  predicate InRangeReading(e: Event) {
    e.Poll? && e.reply.Some? && e.reply.value.error.None? ==> 0 <= e.reply.value.position <= 100
  }

  /** If every good reading is in 0..100, so is every known position, current or previous. */
  lemma {:induction false} PositionsStayInRange(s: MotionState, events: seq<Event>)
    requires s.position.Some? ==> 0 <= s.position.value <= 100
    requires s.previousPosition.Some? ==> 0 <= s.previousPosition.value <= 100
    requires forall i | 0 <= i < |events| :: InRangeReading(events[i])
    ensures var t := Run(s, events);
      && (t.position.Some? ==> 0 <= t.position.value <= 100)
      && (t.previousPosition.Some? ==> 0 <= t.previousPosition.value <= 100)
    decreases |events|
  {
    if events != [] {
      assert InRangeReading(events[0]);
      PositionsStayInRange(Step(s, events[0]), events[1..]);
    }
  }

  /**
   * From a fresh cover: the blind reads native 70 (30% open), the user opens
   * it, and the next reading is still 70. That reading equals the one before,
   * so the cover is taken to be at rest already; the flags are cleared at once,
   * not kept until the blind is seen to move. A later reading of 50 remembers
   * 30 and keeps the flags, and a second 50 settles again.
   */
  lemma OpenThenUnchangedReadingSettles()
    ensures Run(Initial, [Poll(Some(Transport.Status(70, None))), Open(true)])
         == MotionState(Some(30), None, Some(true), Some(false))
    ensures Run(Initial, [Poll(Some(Transport.Status(70, None))), Open(true),
                          Poll(Some(Transport.Status(70, None)))])
         == MotionState(Some(30), None, Some(false), Some(false))
    ensures Run(Initial, [Poll(Some(Transport.Status(70, None))), Open(true),
                          Poll(Some(Transport.Status(70, None))), Poll(Some(Transport.Status(50, None)))])
         == MotionState(Some(50), Some(30), Some(false), Some(false))
    ensures Run(Initial, [Poll(Some(Transport.Status(70, None))), Open(true),
                          Poll(Some(Transport.Status(70, None))), Poll(Some(Transport.Status(50, None))),
                          Poll(Some(Transport.Status(50, None)))])
         == MotionState(Some(50), None, Some(false), Some(false))
  {
  }
}
