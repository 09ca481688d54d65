/**
 The amplifier actuator: `Bridge.switch_amp` in soya.py.

 The switch performs up to five device calls, in this order: select the input on
 the amplifier, read the amplifier's power flag, power it on (only when it was
 off), read the speaker's volume (only when a volume floor is configured), and
 raise that volume to the floor (only when it is below the floor). Any of these
 calls may raise. The `Fault` argument says which call, if any, raises when it is
 reached: a call that raises has no effect of its own, the calls before it keep
 their effects (there is no rollback), and the calls after it do not happen.
 */
module Switch {
  import opened Optional
  import opened Devices

  datatype Call = SetInput | QueryPower | PowerOn | QueryVolume | RaiseVolume

  /** The failure oracle: either no device call raises, or the given one does if it is made. */
  datatype Fault = NeverFails | FailsAt(call: Call)

  /** What a switch attempt leaves behind: the two devices, and whether it returned normally. */
  datatype Switched = Switched(amp: Amp, speaker: Device, ok: bool)

  function Max(a: int, b: int): (r: int) {
    if a < b then b else a
  }

  /** Whether the switch reaches `call`, judged from the devices as they were before it started.
      None of the earlier calls changes what a later call's guard reads. */
  predicate Reaches(call: Call, amp: Amp, speaker: Device, floor: Option<int>) {
    match call
    case SetInput => true
    case QueryPower => true
    case PowerOn => !amp.on
    case QueryVolume => floor.Some?
    case RaiseVolume => floor.Some? && speaker.volume < floor.value
  }

  /** The switch raises exactly when the faulty call is one it reaches. */
  predicate Raises(fault: Fault, amp: Amp, speaker: Device, floor: Option<int>) {
    fault.FailsAt? && Reaches(fault.call, amp, speaker, floor)
  }

  /**
   The switch with the behaviour lines 40-46 spell out: a missing floor means "no
   volume step". Lines 38-39 as written raise first when the floor is missing; see
   `SwitchAmpAsWritten`.
   */
  function SwitchAmp(amp: Amp, speaker: Device, input: string, floor: Option<int>, fault: Fault): (r: Switched)
    // it returns normally exactly when no call it makes raises
    ensures r.ok <==> !Raises(fault, amp, speaker, floor)
    // a completed switch leaves the amplifier on the configured input and powered
    ensures r.ok ==> r.amp == Amp(input, true)
    // ... and the speaker at no less than the floor, changed only if it was below it
    ensures r.ok && floor.Some? ==> r.speaker.volume == Max(speaker.volume, floor.value)
    ensures r.ok && floor.None? ==> r.speaker == speaker
    // the volume is never lowered, and only the volume of the speaker can change
    ensures r.speaker.volume >= speaker.volume
    ensures r.speaker == speaker.(volume := r.speaker.volume)
    ensures floor.None? || speaker.volume >= floor.value ==> r.speaker == speaker
    // the speaker write is the last call, so a switch that raised left the speaker alone
    ensures !r.ok ==> r.speaker == speaker
    // no rollback: a failure past the first call keeps the new input,
    // a failure in the volume steps also keeps the amplifier powered on
    ensures fault == FailsAt(SetInput) ==> r == Switched(amp, speaker, false)
    ensures fault.FailsAt? && fault.call != SetInput ==> r.amp.input == input
    ensures fault.FailsAt? && fault.call in {QueryPower, PowerOn} ==> r.amp.on == amp.on
    ensures fault.FailsAt? && fault.call in {QueryVolume, RaiseVolume} ==> r.amp == Amp(input, true)
    // the amplifier is never powered off
    ensures amp.on ==> r.amp.on
  {
    if fault == FailsAt(SetInput) then Switched(amp, speaker, false)
    else
      var selected := amp.(input := input);
      if fault == FailsAt(QueryPower) then Switched(selected, speaker, false)
      else if !selected.on && fault == FailsAt(PowerOn) then Switched(selected, speaker, false)
      else
        var powered := if selected.on then selected else selected.(on := true);
        if floor.None? then Switched(powered, speaker, true)
        else if fault == FailsAt(QueryVolume) then Switched(powered, speaker, false)
        else if speaker.volume < floor.value then
          if fault == FailsAt(RaiseVolume) then Switched(powered, speaker, false)
          else Switched(powered, speaker.(volume := floor.value), true)
        else Switched(powered, speaker, true)
  }

  /**
   The switch as soya.py writes it: the log line formats the floor with `%d`
   before anything else happens, which raises a TypeError when the floor is
   `None`. So with no floor the switch always raises and touches no device.
   */
  function SwitchAmpAsWritten(amp: Amp, speaker: Device, input: string, floor: Option<int>, fault: Fault): (r: Switched)
    ensures r.ok ==> floor.Some?
    ensures floor.None? ==> r.amp == amp && r.speaker == speaker
    ensures floor.Some? ==> r == SwitchAmp(amp, speaker, input, floor, fault)
  {
    if floor.None? then Switched(amp, speaker, false)
    else SwitchAmp(amp, speaker, input, floor, fault)
  }

  /** With no floor, the switch as written raises however healthy the devices are, and leaves
      the amplifier on its old input; the corrected switch selects the input, powers on and
      returns without touching the speaker. */
  lemma NoFloorAsWrittenRaises(amp: Amp, speaker: Device, input: string)
    requires amp.input != input
    ensures !SwitchAmpAsWritten(amp, speaker, input, None, NeverFails).ok
    ensures SwitchAmpAsWritten(amp, speaker, input, None, NeverFails).amp.input != input
    ensures SwitchAmp(amp, speaker, input, None, NeverFails) == Switched(Amp(input, true), speaker, true)
    // the corrected switch never reads the speaker's volume when there is no floor
    ensures SwitchAmp(amp, speaker, input, None, FailsAt(QueryVolume)).ok
  {
  }

  /** A completed switch is a fixed point: switching again makes neither the power-on nor
      the volume write, and unless one of the remaining reads or the input write raises,
      it changes neither device. */
  lemma SwitchAgainIsIdempotent(amp: Amp, speaker: Device, input: string, floor: Option<int>, fault: Fault, fault2: Fault)
    requires SwitchAmp(amp, speaker, input, floor, fault).ok
    ensures var s := SwitchAmp(amp, speaker, input, floor, fault);
            !Reaches(PowerOn, s.amp, s.speaker, floor) && !Reaches(RaiseVolume, s.amp, s.speaker, floor)
    ensures var s := SwitchAmp(amp, speaker, input, floor, fault);
            !Raises(fault2, s.amp, s.speaker, floor) ==> SwitchAmp(s.amp, s.speaker, input, floor, fault2) == s
  {
  }
}
