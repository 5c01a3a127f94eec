# Somfy PoE blind cover: position and motion state machine

This project models the cover entity of a Home Assistant integration for Somfy
PoE blinds (`SomfyCover`). The entity keeps four fields: the open percentage
last read from the blind; the pre-poll position of the last good reading, which
is unknown when that reading repeated it; and two flags that say whether the blind is believed to be opening or closing.
All four start unknown. They change in three ways:

- **Commands** (open, close, stop, set position) call the blind's client. Only
  after the call returns do they set the direction flags optimistically. For a
  set-position command, the direction comes from comparing the target with the
  current position, and an unknown position counts as 0. The target is sent to
  the blind on its native scale, `100 - target`.
- **Polls** read the blind's status. A reading without an error becomes the new
  position, inverted from the native scale. The pre-poll position is kept as the
  previous position. If the new reading equals a known pre-poll position, the
  motion is over: both flags are cleared and the previous position is
  forgotten. The blind has no completion event, so this is the only way the
  cover learns that a motion has ended. A missing status or an error status
  changes nothing.
- **Reads**: `is_closed` means position 0. The other reads return the stored
  fields.

Layout:

- `options.dfy`: `Options.Option`, the optional value behind every field.
- `scale.dfy`: `Scale.Invert`, the conversion between percentage and native
  scale.
- `transport.dfy`: `Transport.BlindClient`, the blind's client as the cover
  sees it. Every call is appended to `requests`. Whether a call goes through is
  set by the environment in `online`. What a status read returns is set in
  `report`. A call that does not go through stands for the client raising an
  error.
- `motion.dfy`: `Motion.MotionState` (the four fields as a value),
  `Motion.Event`, the one-event transition `Motion.Step`, its iteration
  `Motion.Run`, the invariant `Motion.Inv`, and the lemmas about them.
- `cover.dfy`: the class `Cover.SomfyCover`. Its fields are updated in place.
  Each method is proved to leave the fields equal to
  `Step(old(State()), event)` for the event it performs, and to keep the object
  invariant `Valid()`. The reads `CurrentCoverPosition`, `IsOpening` and
  `IsClosing` return the stored fields (cover.py:116-134), and their contracts
  show the invariant at the public surface.

The invariant kept by every operation has three parts. When one flag is true,
the other is false, so the two are never both true. They are known or unknown
together. A remembered previous position always differs from a known current
position.

A reading equal to the pre-poll position ends the motion, even right after a
command. If the cover is opened and the next reading is unchanged, both flags are
cleared at once (cover.py:168-171). `Motion.OpenThenUnchangedReadingSettles`
states the whole sequence.

## Model

| member | source | states |
|---|---|---|
| `Scale.Invert` | cover.py:165 | converting a native reading to a percentage (or back) maps 0..100 onto 0..100 and nothing outside it into it |
| `Scale.InvertRoundTrip` | cover.py:183 | the inversion used to send a target, applied again to the reading, gives back the target |
| `Transport.BlindClient.Up` | cover.py:137 | the open call is recorded; it goes through exactly when the client is online |
| `Transport.BlindClient.Down` | cover.py:143 | the close call is recorded; it goes through exactly when the client is online |
| `Transport.BlindClient.Stop` | cover.py:149 | the stop call is recorded; it goes through exactly when the client is online |
| `Transport.BlindClient.Move` | cover.py:183 | the move call with its native target is recorded; it goes through exactly when the client is online |
| `Transport.BlindClient.GetStatus` | cover.py:157 | the status read is recorded; it yields the device's report when online and nothing otherwise |
| `Motion.StepKeepsInv` | cover.py:136-196 | every command and every poll keeps the invariant, so none leaves both flags true |
| `Motion.OpenOutcome` | cover.py:136-140 | a delivered open gives opening true, closing false, and the same positions; an undelivered one changes nothing |
| `Motion.CloseOutcome` | cover.py:142-146 | a delivered close gives closing true, opening false, and the same positions; an undelivered one changes nothing |
| `Motion.StopOutcome` | cover.py:148-152 | a delivered stop clears both flags whatever they were and keeps the positions; an undelivered one changes nothing |
| `Motion.SetPositionOutcome` | cover.py:177-196 | a delivered move sets opening exactly when the target is above the current position (unknown = 0), closing exactly when below, neither when equal; positions are kept; an undelivered one changes nothing |
| `Motion.FailedPollChangesNothing` | cover.py:159-175 | a poll without a status, or with an error status, leaves all four fields unchanged |
| `Motion.PollOutcome` | cover.py:159-171 | a good reading sets the position to 100 minus the native value; if that equals the pre-poll position, both flags become false and the previous position unknown; otherwise the flags stand and the previous position becomes the pre-poll one |
| `Motion.PollStaysInRange` | cover.py:165 | a good reading of a native value in 0..100 leaves a known position in 0..100 |
| `Motion.RepeatedReadingSettles` | cover.py:161-171 | two consecutive good readings of the same value end any motion: both flags false, previous position unknown, from any state |
| `Motion.MoveThenMatchingReading` | cover.py:165-183 | moving to a target and then reading back the native value that was sent gives exactly that target as position, closed exactly when the target is 0 |
| `Motion.RunKeepsInv` | cover.py:136-196 | any sequence of commands and polls from a state satisfying the invariant keeps it |
| `Motion.ReachableKeepsInv` | cover.py:93-96 | every state reachable from the initial all-unknown fields satisfies the invariant and never has both flags true |
| `Motion.IneffectiveEventsChangeNothing` | cover.py:136-196 | any sequence of failed commands, absent statuses and error statuses leaves the state exactly as it was |
| `Motion.CommandsKeepPosition` | cover.py:136-196 | commands alone never change the position or the previous position; only polls do |
| `Motion.PositionsStayInRange` | cover.py:161-171 | if every good reading is in 0..100, the current and previous positions stay in 0..100 over any sequence of events |
| `Motion.OpenThenUnchangedReadingSettles` | cover.py:154-171 | after an open, a reading equal to the one before it clears the flags at once; a later changed reading keeps them and remembers the old position; a repeat settles again |
| `Cover.SomfyCover.constructor` | cover.py:86-96 | a new cover has all four fields unknown and satisfies the invariant |
| `Cover.SomfyCover.CurrentCoverPosition` | cover.py:116-119 | returns the stored position; on a valid cover, a remembered pre-poll position means the current one is known and differs from it |
| `Cover.SomfyCover.IsOpening` | cover.py:131-134 | returns the stored opening flag; on a valid cover, opening true means closing is false, and the two are unknown together |
| `Cover.SomfyCover.IsClosing` | cover.py:126-129 | returns the stored closing flag; on a valid cover, closing true means opening is false, and the two are unknown together |
| `Cover.SomfyCover.IsClosed` | cover.py:121-124 | closed exactly when the reported position is 0, whatever the flags say |
| `Cover.SomfyCover.OpenCover` | cover.py:136-140 | sends `up`; the new fields are the open transition of the old ones, applied only if the call went through; invariant kept |
| `Cover.SomfyCover.CloseCover` | cover.py:142-146 | sends `down`; the new fields are the close transition of the old ones, applied only if the call went through; invariant kept |
| `Cover.SomfyCover.StopCover` | cover.py:148-152 | sends `stop`; the new fields are the stop transition of the old ones, applied only if the call went through; invariant kept |
| `Cover.SomfyCover.Update` | cover.py:154-175 | sends `get_status`; the new fields are the poll transition of the old ones for the status received (none if the call failed); invariant kept |
| `Cover.SomfyCover.SetCoverPosition` | cover.py:177-196 | sends `move(100 - target)`; the new fields are the set-position transition of the old ones, applied only if the call went through; invariant kept |

## Left out

- `async_setup_entry`, `async_unload_entry` and `_load_device` (cover.py:15-75) are left out. They cover platform loading, the per-entry registry of timer cancellers, the two-minute refresh that logs in again and polls, and the failure callback that reloads the entry. All of this is host-framework scheduling with no state of the cover in it.
- The client's wire protocol and `login` are left out. The client is reduced to the calls the cover makes and whether each goes through.
- The executor hand-off (`async_add_executor_job`) and `async_write_ha_state` are left out. Each method is modelled as running to completion without interleaving.
- `SetCoverPosition` reads the current position before it awaits the move, as the source does. The source could in principle run a poll during that await. The model does not capture that interleaving.
- A status read that raises and one that returns `None` are both modelled as a poll without a status. Both leave the fields unchanged; the first also propagates the error, which `Update` reports as `ok == false`.
- `device_info`, `extra_state_attributes`, `available`, `supported_features` and logging are left out, because they are presentation only. So is the unused `was_moving` local (cover.py:162).
- sensor.py is not part of this model. Its sensors only display labelled values.
