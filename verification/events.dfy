/**
 The event filter, `handle_event` in soya.py, and the consumer loop that feeds it
 every queued event in turn.

 An event reaches the bridge only if it carries a transport state, its player is
 the coordinator of its group, and the bridge's speaker is a member of that group.
 */
module Events {
  import opened Optional
  import opened Devices
  import opened Switch
  import opened BridgeMachine

  /** Whether `handle_event` forwards `e` to a bridge whose speaker is `target`. */
  predicate Accepted(e: Event, target: DeviceId) {
    && TransportState(e).Some?
    && e.player.isCoordinator
    && target in e.player.members
  }

  function HandleEvent(e: Event, b: Bridge, fault: Fault): (r: Bridge)
    // a filtered-out event changes nothing: state, arming, amplifier and speaker
    ensures !Accepted(e, b.speaker.id) ==> r == b
    // an accepted one hands the bridge exactly the event's transport state
    ensures Accepted(e, b.speaker.id) ==> r == SetState(b, TransportState(e).value, fault)
  {
    var state := TransportState(e);
    if state.None? then b
    else if !e.player.isCoordinator || b.speaker.id !in e.player.members then b
    else SetState(b, state.value, fault)
  }

  /** The consumer loop: each queued event is handled in order; `faults[i]` is the
      failure oracle for the switch, if any, that event `i` triggers. */
  function Run(b: Bridge, es: seq<Event>, faults: seq<Fault>): (r: Bridge)
    requires |faults| == |es|
    // the configuration and the speaker's identity never change
    ensures SameSetup(b, r)
    // the speaker's volume never goes down
    ensures r.speaker.volume >= b.speaker.volume
    decreases |es|
  {
    if |es| == 0 then b
    else Run(HandleEvent(es[0], b, faults[0]), es[1..], faults[1..])
  }

  /** The transport states the filter lets through to a bridge whose speaker is `target`, in order. */
  function Forwarded(target: DeviceId, es: seq<Event>): (r: seq<string>)
    ensures |r| <= |es|
    // every forwarded state is the transport state of an accepted event
    ensures forall s :: s in r ==> exists i :: 0 <= i < |es| && Accepted(es[i], target) && TransportState(es[i]) == Some(s)
    // and every accepted event's state is forwarded
    ensures forall i :: 0 <= i < |es| && Accepted(es[i], target) ==> TransportState(es[i]).value in r
  {
    if |es| == 0 then []
    else (if Accepted(es[0], target) then [TransportState(es[0]).value] else []) + Forwarded(target, es[1..])
  }

  /** How many switches the loop attempts. */
  function Attempts(b: Bridge, es: seq<Event>, faults: seq<Fault>): (n: nat)
    requires |faults| == |es|
    decreases |es|
  {
    if |es| == 0 then 0
    else
      var e := es[0];
      var fires := Accepted(e, b.speaker.id) && Fires(b, TransportState(e).value);
      (if fires then 1 else 0) + Attempts(HandleEvent(e, b, faults[0]), es[1..], faults[1..])
  }

  /** After the loop the bridge holds the last forwarded state, or its old one when nothing
      was forwarded: filtered-out events never touch it. */
  lemma {:induction false} RunRecordsLastForwarded(b: Bridge, es: seq<Event>, faults: seq<Fault>)
    requires |faults| == |es|
    ensures var fw := Forwarded(b.speaker.id, es);
            Run(b, es, faults).state == if |fw| == 0 then b.state else Some(fw[|fw| - 1])
    decreases |es|
  {
    if |es| > 0 {
      var b1 := HandleEvent(es[0], b, faults[0]);
      RunRecordsLastForwarded(b1, es[1..], faults[1..]);
    }
  }

  /** A disarmed bridge to which no STOPPED or PAUSED_PLAYBACK is ever forwarded stays
      disarmed, never attempts a switch, and leaves both devices as they were. */
  lemma {:induction false} NoArmingNoSwitch(b: Bridge, es: seq<Event>, faults: seq<Fault>)
    requires |faults| == |es|
    requires !b.hot
    requires forall s :: s in Forwarded(b.speaker.id, es) ==> !Arms(s)
    ensures var r := Run(b, es, faults);
            !r.hot && r.amp == b.amp && r.speaker == b.speaker
    ensures Attempts(b, es, faults) == 0
    decreases |es|
  {
    if |es| > 0 {
      var b1 := HandleEvent(es[0], b, faults[0]);
      assert b1.speaker.id == b.speaker.id;
      assert forall s :: s in Forwarded(b1.speaker.id, es[1..]) ==> s in Forwarded(b.speaker.id, es);
      NoArmingNoSwitch(b1, es[1..], faults[1..]);
    }
  }

  /** An event from `player` reporting `state`. */
  function Report(player: Device, state: string): (e: Event)
    ensures TransportState(e) == Some(state)
  {
    Event(player, map[TransportStateKey := state])
  }

  /** STOPPED then PLAYING from the speaker's group coordinator, on a new bridge whose devices
      respond: exactly one switch, after which the amplifier is on the configured input and
      powered and the speaker is at least at the floor. */
  lemma StopThenPlaySwitchesOnce(amp: Amp, speaker: Device, input: string, floor: int, player: Device)
    requires player.isCoordinator && speaker.id in player.members
    ensures var b := NewBridge(amp, speaker, input, floor);
            var es := [Report(player, Stopped), Report(player, Playing)];
            var r := Run(b, es, [NeverFails, NeverFails]);
            && Attempts(b, es, [NeverFails, NeverFails]) == 1
            && r.amp == Amp(input, true)
            && r.speaker.volume == Max(speaker.volume, floor)
            && r.hot && r.state == Some(Playing)
  {
    var b := NewBridge(amp, speaker, input, floor);
    var es := [Report(player, Stopped), Report(player, Playing)];
    var fs := [NeverFails, NeverFails];
    var b1 := HandleEvent(es[0], b, NeverFails);
    assert b1.hot && b1.speaker == speaker && b1.amp == amp;
    var b2 := HandleEvent(es[1], b1, NeverFails);
    assert b2 == SetState(b1, Playing, NeverFails);
    assert es[1..][1..] == [] && fs[1..][1..] == [];
    assert Run(b, es, fs) == Run(b1, es[1..], fs[1..]) == b2;
    assert Attempts(b, es, fs) == Attempts(b1, es[1..], fs[1..]) == 1;
  }

  /** PLAYING twice on a new bridge: nothing was armed, so no switch and no device changes. */
  lemma PlayWithoutStopIsInert(amp: Amp, speaker: Device, input: string, floor: int, player: Device, f1: Fault, f2: Fault)
    ensures var b := NewBridge(amp, speaker, input, floor);
            var es := [Report(player, Playing), Report(player, Playing)];
            var r := Run(b, es, [f1, f2]);
            && Attempts(b, es, [f1, f2]) == 0
            && r.amp == amp && r.speaker == speaker && !r.hot
  {
    var b := NewBridge(amp, speaker, input, floor);
    var es := [Report(player, Playing), Report(player, Playing)];
    assert Forwarded(b.speaker.id, es) == Forwarded(b.speaker.id, es[..1]) + Forwarded(b.speaker.id, es[1..]) by {
      assert es[1..][1..] == [];
    }
    assert forall s :: s in Forwarded(b.speaker.id, es) ==> s == Playing;
    NoArmingNoSwitch(b, es, [f1, f2]);
  }

  /** A PLAYING report from a player that is not its group's coordinator changes nothing,
      even on an armed bridge whose speaker is in that group. */
  lemma NonCoordinatorIsIgnored(b: Bridge, player: Device, fault: Fault)
    requires !player.isCoordinator
    ensures HandleEvent(Report(player, Playing), b, fault) == b
  {
  }

  /** On an armed bridge, a PLAYING report whose switch raises still records PLAYING but disarms. */
  lemma FailingSwitchDisarms(b: Bridge, player: Device, fault: Fault)
    requires b.hot && player.isCoordinator && b.speaker.id in player.members
    requires Raises(fault, b.amp, b.speaker, Some(b.floor))
    ensures var r := HandleEvent(Report(player, Playing), b, fault);
            r.state == Some(Playing) && !r.hot && r.speaker == b.speaker
  {
  }
}
