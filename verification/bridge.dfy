/**
 The bridge: `Bridge` in soya.py, a Mealy machine over the last reported
 transport state and the "hot" flag.

 Writing a transport state always records it. `STOPPED` and `PAUSED_PLAYBACK`
 arm the bridge. `PLAYING` on an armed bridge switches the amplifier; a switch
 that raises disarms it, one that completes leaves it armed, so every later
 `PLAYING` switches again. Any other value is only recorded.
 */
module BridgeMachine {
  import opened Optional
  import opened Devices
  import opened Switch

  const Stopped: string := "STOPPED"
  const PausedPlayback: string := "PAUSED_PLAYBACK"
  const Playing: string := "PLAYING"

  /** The bridge's whole state: the two devices it drives, the last state written to it
      (`None` before the first), the arming flag, and its fixed configuration. The volume
      floor is an integer, as every bridge the program builds has one (soya.py:100, 125);
      the switch with a missing floor is modelled by `Switch.SwitchAmpAsWritten`. */
  datatype Bridge = Bridge(
    amp: Amp,
    speaker: Device,
    state: Option<string>,
    hot: bool,
    input: string,
    floor: int
  )

  /** States that arm the bridge. */
  predicate Arms(v: string) {
    v == Stopped || v == PausedPlayback
  }

  /** Whether writing `v` to `b` makes the bridge attempt a switch (the machine's output). */
  predicate Fires(b: Bridge, v: string) {
    v == Playing && b.hot
  }

  /** The configuration and the speaker's identity never change once the bridge exists. */
  predicate SameSetup(b: Bridge, b': Bridge) {
    && b'.input == b.input
    && b'.floor == b.floor
    && b'.speaker.id == b.speaker.id
    && b'.speaker.name == b.speaker.name
  }

  /** A new bridge: nothing reported yet, not armed. */
  function NewBridge(amp: Amp, speaker: Device, input: string, floor: int): (b: Bridge)
    ensures b.state.None? && !b.hot
    ensures b.amp == amp && b.speaker == speaker && b.input == input && b.floor == floor
  {
    Bridge(amp, speaker, None, false, input, floor)
  }

  /** The `state` property setter. `fault` decides which device call, if any, raises
      should the write trigger a switch. */
  function SetState(b: Bridge, v: string, fault: Fault): (r: Bridge)
    // the written value is always recorded, whatever happened before or during a switch
    ensures r.state == Some(v)
    ensures SameSetup(b, r)
    // arming states arm (idempotently) and touch no device
    ensures Arms(v) ==> r.hot && r.amp == b.amp && r.speaker == b.speaker
    // PLAYING on a disarmed bridge, and any unrecognised value, only record the value
    ensures !Arms(v) && !Fires(b, v) ==> r == b.(state := Some(v))
    // a switch that raises disarms the bridge; one that completes leaves it armed
    ensures Fires(b, v) ==> (r.hot <==> !Raises(fault, b.amp, b.speaker, Some(b.floor)))
    // after a completed switch the amplifier is on the configured input and powered,
    // and the speaker is at least at the floor
    ensures Fires(b, v) && r.hot ==> r.amp == Amp(b.input, true)
    ensures Fires(b, v) && r.hot ==> r.speaker.volume == Max(b.speaker.volume, b.floor)
    // devices only change through a switch, and the speaker volume never goes down
    ensures r.amp != b.amp || r.speaker != b.speaker ==> Fires(b, v)
    ensures r.speaker.volume >= b.speaker.volume
    // only an arming state can leave an unarmed bridge armed
    ensures r.hot ==> Arms(v) || b.hot
  {
    var recorded := b.(state := Some(v));
    if Arms(v) then recorded.(hot := true)
    else if Fires(b, v) then
      var s := SwitchAmp(b.amp, b.speaker, b.input, Some(b.floor), fault);
      recorded.(amp := s.amp, speaker := s.speaker, hot := s.ok)
    else recorded
  }

  /** A completed switch leaves the bridge armed, so the next PLAYING switches again; that
      second switch cannot power on or raise the volume, and unless a device call raises it
      changes nothing at all. */
  lemma PlayingAgainSwitchesAgain(b: Bridge, fault: Fault, fault2: Fault)
    requires Fires(b, Playing)
    requires !Raises(fault, b.amp, b.speaker, Some(b.floor))
    ensures var b1 := SetState(b, Playing, fault);
            b1.hot && Fires(b1, Playing)
    ensures var b1 := SetState(b, Playing, fault);
            !Raises(fault2, b1.amp, b1.speaker, Some(b1.floor)) ==> SetState(b1, Playing, fault2) == b1
  {
    SwitchAgainIsIdempotent(b.amp, b.speaker, b.input, Some(b.floor), fault, fault2);
  }

  /** A switch that raises disarms the bridge, after which PLAYING is inert until an arming
      state is written. */
  lemma FailedSwitchSuppressesRetries(b: Bridge, fault: Fault, fault2: Fault)
    requires Fires(b, Playing)
    requires Raises(fault, b.amp, b.speaker, Some(b.floor))
    ensures var b1 := SetState(b, Playing, fault);
            !b1.hot && b1.state == Some(Playing) && SetState(b1, Playing, fault2) == b1
  {
  }

  /** The bridge's switch is the one soya.py:38-46 performs, `%d` log line included: on every
      bridge, an armed PLAYING leaves the devices and the arming flag exactly as the switch as
      written would, with its outcome deciding whether the bridge stays armed. */
  lemma SetStateSwitchesAsWritten(b: Bridge, fault: Fault)
    requires b.hot
    ensures var w := SwitchAmpAsWritten(b.amp, b.speaker, b.input, Some(b.floor), fault);
            SetState(b, Playing, fault) == b.(state := Some(Playing), amp := w.amp, speaker := w.speaker, hot := w.ok)
  {
  }

  /** The setter reads the devices it is handed, so an amplifier found in standby (say, put
      there by hand after an earlier completed switch) is powered on again by the next armed
      PLAYING, and a power-on that raises then disarms the bridge. */
  lemma StandbyAmpIsPoweredOnAgain(b: Bridge)
    requires b.hot && !b.amp.on
    ensures SetState(b, Playing, NeverFails).amp == Amp(b.input, true)
    ensures SetState(b, Playing, NeverFails).hot
    ensures !SetState(b, Playing, FailsAt(PowerOn)).hot
    ensures !SetState(b, Playing, FailsAt(PowerOn)).amp.on
  {
  }
}
