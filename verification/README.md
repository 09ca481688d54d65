# soya bridge — a Dafny model

soya watches the transport-state notifications of a Sonos system and, when music
resumes after being stopped or paused on the group that contains a chosen
speaker, switches a Yamaha amplifier to a configured input, powers it on, and
raises the speaker's volume to a floor. This project models the decision logic
of `soya.py` as pure functions over immutable records:

- `Devices` — players (`Device`: identity, name, coordinator flag, group members,
  volume), the amplifier (`Amp`: input, power), and events (`Event`: the
  reporting player and its evented variables).
- `Switch` — `switch_amp`: the five device calls in order, with an explicit
  failure oracle (`Fault`: no call raises, or a named call raises when it is
  reached). Earlier calls keep their effects when a later one raises.
- `BridgeMachine` — the `Bridge` record and its `state` setter as a Mealy
  machine over the recorded state and the `hot` flag.
- `Events` — `handle_event` as a filter in front of the setter, and `Run`, the
  consumer loop applying it to a queue of events in order (each with its own
  failure oracle), with trace properties of that loop.
- `Discovery` — `find_speakers`, the unique-match lookup by player name.

Device I/O is replaced by record updates; whether a device call raises is the
`Fault` parameter. Device identity (the source compares player objects) is a
`DeviceId`. Logging is not modelled.

## Model

| member | source | states |
|---|---|---|
| Switch.SwitchAmp | soya.py:40-46 | returns normally iff no reached device call raises; on success the amp is on the configured input and powered and the speaker volume is max(old, floor); the volume is never lowered and is untouched when at or above the floor or when there is no floor; a failure keeps earlier steps (input kept after a failure past step 1, power kept after a failure in the volume steps), a failure leaves the speaker alone, and the amp is never powered off |
| Switch.SwitchAmpAsWritten | soya.py:38-46 | as written the switch can only succeed with a floor set; with no floor it touches neither device; with a floor it behaves exactly as the corrected switch |
| Switch.NoFloorAsWrittenRaises | soya.py:39-44 | with no floor and healthy devices, the written switch raises and leaves the old input, while the corrected switch selects the input, powers on, and never reads the volume |
| Switch.SwitchAgainIsIdempotent | soya.py:40-46 | after a completed switch, a second switch neither powers on nor writes the volume, and when it does not raise it changes nothing |
| BridgeMachine.NewBridge | soya.py:14-20 | a new bridge has no recorded state and is disarmed, holding the given devices, input and integer floor |
| BridgeMachine.SetState | soya.py:26-36 | the written value is always recorded; STOPPED/PAUSED_PLAYBACK arm without touching devices; PLAYING while disarmed and any other value only record; PLAYING while armed switches, staying armed iff the switch completes; devices change only through a switch; the volume never decreases; configuration and speaker identity never change; the bridge is armed afterwards only if it was armed or the value arms it |
| BridgeMachine.SetStateSwitchesAsWritten | soya.py:31-46 | on every bridge, an armed PLAYING leaves the amp, the speaker and the arming flag exactly as the switch written in the source (log line included) leaves them, armed iff that switch returns normally |
| BridgeMachine.StandbyAmpIsPoweredOnAgain | soya.py:40-42 | an armed PLAYING on a bridge whose amp is in standby powers it on and stays armed, and a power-on that raises disarms the bridge and leaves the amp off |
| BridgeMachine.PlayingAgainSwitchesAgain | soya.py:31-36 | after a completed switch the bridge stays armed, so the next PLAYING switches again, and that second switch changes nothing unless a device call raises |
| BridgeMachine.FailedSwitchSuppressesRetries | soya.py:31-36 | a switch that raises disarms the bridge, records PLAYING, and any further PLAYING leaves the bridge as it is |
| Events.HandleEvent | soya.py:79-92 | an event without a transport state, from a non-coordinator, or from a group not containing the target speaker leaves the bridge (state, hot, amp, speaker) unchanged; otherwise the bridge receives exactly the event's transport state |
| Events.Run | soya.py:131-134 | handling a sequence of queued events in order never changes the input, the floor or the target speaker's identity, and never lowers the speaker's volume |
| Events.RunRecordsLastForwarded | soya.py:82-92 | after a sequence of events the recorded state is the last one the filter forwarded, or the old one if none was forwarded |
| Events.NoArmingNoSwitch | soya.py:29-36 | a disarmed bridge that is forwarded no STOPPED or PAUSED_PLAYBACK attempts no switch, stays disarmed and leaves both devices unchanged |
| Events.StopThenPlaySwitchesOnce | soya.py:26-46 | STOPPED then PLAYING from the coordinator of the speaker's group, on a new bridge with healthy devices, attempts exactly one switch and leaves the amp on the input, powered, and the speaker at least at the floor |
| Events.PlayWithoutStopIsInert | soya.py:17-31 | PLAYING twice on a new bridge attempts no switch and changes no device |
| Events.NonCoordinatorIsIgnored | soya.py:89-90 | a PLAYING report from a non-coordinator never reaches the bridge |
| Events.FailingSwitchDisarms | soya.py:32-36 | on an armed bridge, an accepted PLAYING whose switch raises records PLAYING, disarms, and leaves the speaker alone |
| Discovery.Named | soya.py:75 | the name filter keeps exactly the listed devices that carry the name |
| Discovery.NoneNamed | soya.py:75 | the name filter is empty exactly when no device has the name |
| Discovery.OneNamed | soya.py:75-76 | the name filter has exactly one element iff exactly one position holds the name, and then it is that device |
| Discovery.FindSpeakers | soya.py:74-76 | returns a device iff exactly one device has the name, and then that device; with zero or several matches it returns none |

## Left out

- Threads and the shared queue (`collect_events`, `subscribe_one`, `subscribe`, soya.py:49-71): concurrency plumbing over soco subscriptions; the model takes the merged queue as a given sequence of events (`Run`).
- `main` (soya.py:95-145): argument parsing, rxv/soco discovery, the blocking loop, interrupt handling and listener teardown are I/O. Only the loop body (pop an event, handle it) is modelled, as `Run`.
- Logging (soya.py:35, 39, 87): the text is not modelled. That line 39 raises on a `None` floor is modelled on the switch alone (`Switch.SwitchAmpAsWritten`; see Findings).
- BridgeMachine.SetState: the bridge's floor is an integer, as `main` always passes one (soya.py:100, 125); a bridge built with `vol=None`, which the program never builds, is not modelled, so its switch failing and disarming the bridge is shown only at the level of the switch.
- Events.Run: between events, the amp and the speaker change only through the bridge. The source reads the live devices on every switch (soya.py:41, 45), so an amp put in standby or a volume lowered by hand between events is seen there. `Run` does not interleave such outside changes, so its device results, and the "changes nothing" of `BridgeMachine.PlayingAgainSwitchesAgain`, hold only when nobody else touches the devices. `SetState` and `HandleEvent` take the devices as given, so a caller can apply outside changes between calls (see `BridgeMachine.StandbyAmpIsPoweredOnAgain`).
- Speaker volume is an unbounded integer, and a volume write stores the floor as given. A Sonos speaker keeps its volume in 0..100, so with a floor above 100 the device would hold less than the floor and every switch would write again. This clamping by the device is not modelled.
- Exceptions raised by `handle_event` itself (reading a player's group or coordinator flag over the network) are not modelled; only device calls inside `switch_amp` may fail.
- A failed device call is assumed to have no effect of its own; a network write that takes effect but then reports an error is not modelled.
- An event variable present with the value `None` is treated like a missing one, since variables are modelled as a map of strings.

## Findings

| source | as written | input that shows it | evidently intended | confidence | as-written member | corrected member |
|---|---|---|---|---|---|---|
| soya.py:39-44 | the log line formats the volume floor with `%d` before any device call, so a `None` floor raises TypeError and the `None` check on line 43 is never reached | `switch_amp` with `_volume = None`, healthy devices and an amp on another input: it raises, and the amp keeps its old input and power | with no floor, select the input, power on, and return without touching the speaker volume | high, not executed; `main` always passes an integer floor (soya.py:100,125), so the two agree on every bridge the program builds | Switch.SwitchAmpAsWritten, Switch.NoFloorAsWrittenRaises | Switch.SwitchAmp |
