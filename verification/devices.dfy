/**
 The external devices the bridge talks to, reduced to plain values.

 A Sonos player is a `Device`: its identity is a `DeviceId` (the source compares
 player objects by identity), it has a display name, a coordinator flag, the
 identities of the members of its current group, and a volume. A Yamaha receiver
 is an `Amp` with a selected input and a power flag. Reading or writing any of
 these attributes is a network call in the source; here it is a field access or a
 record update, and the possibility that such a call raises is made explicit by
 the failure oracle of module `Switch`.
 */
module Devices {
  import opened Optional

  type DeviceId = nat

  datatype Amp = Amp(input: string, on: bool)

  datatype Device = Device(
    id: DeviceId,
    name: string,
    isCoordinator: bool,
    members: set<DeviceId>,
    volume: int
  )

  /** A transport notification: the player whose AVTransport service sent it and the
      evented variables it carries, by name. */
  datatype Event = Event(player: Device, variables: map<string, string>)

  const TransportStateKey: string := "transport_state"

  /** The `transport_state` variable of an event, or `None` when the event does not carry one. */
  function TransportState(e: Event): Option<string>
  {
    if TransportStateKey in e.variables then Some(e.variables[TransportStateKey]) else None
  }
}
