/** Opaque vendor telemetry: parsed JSON, of which only the kind and the value matter. */
module Telemetry {
  datatype Value = Null | Flag(flag: bool) | Number(number: real) | Text(text: string) | Composite(shape: string)

  type Fields = map<string, Value>
}

/**
 * The canonical device state store (`src/device/state.ts`).
 *
 * Shadow patches and REST polls compete for each device's telemetry. A defined
 * shadow version says the shadow owns it; a silence hands it back behind a fence
 * that remembers how far the shadow had been applied.
 */
module DeviceState {
  import opened Wrappers
  import opened Telemetry

  datatype Identity = Identity(deviceId: string, deviceTypeId: string, name: string, serialNumber: string)

  /** One record of a REST inventory response. */
  datatype ApiDevice = ApiDevice(identity: Identity, connected: bool, timestamp: Option<int>, data: Fields)

  datatype Snapshot = Snapshot(
    identity: Identity,
    connected: bool,
    data: Fields,
    metadata: Fields,
    shadowVersion: Option<int>,
    deviceTimestamp: Option<int>,
    receivedAt: int)

  /** One reported shadow document. */
  datatype Patch = Patch(data: Option<Fields>, state: Option<Fields>, version: Option<int>)

  datatype Fence = Unfenced | Fenced(version: Option<int>)

  datatype Reason = Silence | Disconnect

  /** What the store holds for one device. */
  datatype Entry = Entry(snapshot: Option<Snapshot>, fence: Fence)

  const Unknown := Entry(None, Unfenced)

  predicate HasTelemetryReading(patch: Patch) {
    patch.data.Some? && patch.data.value != map[]
  }

  predicate CarriesObservation(patch: Patch) {
    HasTelemetryReading(patch) || patch.state.Some?
  }

  predicate IsStalePatch(applied: Option<int>, incoming: Option<int>) {
    applied.Some? && incoming.Some? && incoming.value <= applied.value
  }

  predicate IsFencedOut(fence: Fence, patch: Patch) {
    match fence
    case Unfenced => false
    case Fenced(version) =>
      if patch.version.None? then HasTelemetryReading(patch) else version.Some? && patch.version.value <= version.value
  }

  function Merged(base: Fields, patch: Option<Fields>): Fields {
    if patch.None? then base else base + patch.value
  }

  function NextShadowVersion(previous: Snapshot, patch: Patch): Option<int> {
    if !HasTelemetryReading(patch) && previous.shadowVersion.None? then None
    else if patch.version.Some? then patch.version
    else previous.shadowVersion
  }

  function NextSnapshot(previous: Snapshot, patch: Patch, now: int): Snapshot {
    previous.(data := Merged(previous.data, patch.data),
              metadata := Merged(previous.metadata, patch.state),
              shadowVersion := NextShadowVersion(previous, patch),
              receivedAt := if CarriesObservation(patch) then now else previous.receivedAt)
  }

  predicate Owned(e: Entry) {
    e.snapshot.Some? && e.snapshot.value.shadowVersion.Some?
  }

  predicate Accepts(e: Entry, patch: Patch) {
    && e.snapshot.Some?
    && !IsFencedOut(e.fence, patch)
    && !IsStalePatch(e.snapshot.value.shadowVersion, patch.version)
  }

  /** One poll's body for a device: it always observes the device, and replaces telemetry the shadow does not own. */
  function Discovered(e: Entry, device: ApiDevice, now: int): Entry {
    var data := if Owned(e) then e.snapshot.value.data else device.data;
    var metadata := if e.snapshot.Some? then e.snapshot.value.metadata else map[];
    var version := if e.snapshot.Some? then e.snapshot.value.shadowVersion else None;
    e.(snapshot := Some(Snapshot(device.identity, device.connected, data, metadata, version, device.timestamp, now)))
  }

  function Patched(e: Entry, patch: Patch, now: int): Entry {
    if !Accepts(e, patch) then
      e
    else
      var next := NextSnapshot(e.snapshot.value, patch, now);
      var fence := if e.fence.Unfenced? || patch.version.None? then e.fence
                   else if next.shadowVersion.None? then Fenced(patch.version)
                   else Unfenced;
      Entry(Some(next), fence)
  }

  function Released(e: Entry, reason: Reason): Entry {
    if e.snapshot.None? then
      if reason.Disconnect? then e.(fence := Unfenced) else e
    else
      Entry(Some(e.snapshot.value.(shadowVersion := None)),
            if reason.Disconnect? then Unfenced
            else if e.fence.Fenced? then e.fence
            else Fenced(e.snapshot.value.shadowVersion))
  }

  /** A fence stands only over a known device whose telemetry the shadow does not own. */
  ghost predicate Sound(e: Entry) {
    e.fence.Fenced? ==> e.snapshot.Some? && e.snapshot.value.shadowVersion.None?
  }

  /** The store: one snapshot and at most one silence fence per device. */
  class DeviceStateStore {
    var snapshots: map<string, Snapshot>
    var silenceFences: map<string, Option<int>>

    function EntryOf(deviceId: string): Entry
      reads this
    {
      Entry(if deviceId in snapshots then Some(snapshots[deviceId]) else None,
            if deviceId in silenceFences then Fenced(silenceFences[deviceId]) else Unfenced)
    }

    ghost predicate Valid()
      reads this
    {
      forall d :: Sound(EntryOf(d))
    }

    constructor ()
      ensures Valid() && snapshots == map[] && silenceFences == map[]
    {
      snapshots, silenceFences := map[], map[];
    }

    method ApplyDiscovery(device: ApiDevice, now: int) returns (snapshot: Snapshot)
      requires Valid()
      modifies this
      ensures Valid()
      ensures EntryOf(device.identity.deviceId) == Discovered(old(EntryOf(device.identity.deviceId)), device, now)
      ensures forall d :: d != device.identity.deviceId ==> EntryOf(d) == old(EntryOf(d))
      ensures snapshots.Keys == old(snapshots.Keys) + {device.identity.deviceId}
      ensures EntryOf(device.identity.deviceId).snapshot == Some(snapshot)
    {
      var deviceId := device.identity.deviceId;
      assert Sound(EntryOf(deviceId));
      var data, metadata, version := device.data, map[], None;
      if deviceId in snapshots {
        var previous := snapshots[deviceId];
        metadata, version := previous.metadata, previous.shadowVersion;
        if version.Some? {
          data := previous.data;
        }
      }
      snapshot := Snapshot(device.identity, device.connected, data, metadata, version, device.timestamp, now);
      snapshots := snapshots[deviceId := snapshot];
      assert forall d :: d != deviceId ==> EntryOf(d) == old(EntryOf(d));
    }

    /** `accepted` is what the caller reads off the identity of the snapshot it gets back. */
    method ApplyReportedPatch(deviceId: string, patch: Patch, now: int) returns (accepted: bool)
      requires Valid()
      modifies this
      ensures Valid()
      ensures accepted <==> Accepts(old(EntryOf(deviceId)), patch)
      ensures EntryOf(deviceId) == Patched(old(EntryOf(deviceId)), patch, now)
      ensures forall d :: d != deviceId ==> EntryOf(d) == old(EntryOf(d))
      ensures snapshots.Keys == old(snapshots.Keys)
    {
      var entry := EntryOf(deviceId);
      if deviceId !in snapshots || IsFencedOut(entry.fence, patch) || IsStalePatch(snapshots[deviceId].shadowVersion, patch.version) {
        return false;
      }
      var next := NextSnapshot(snapshots[deviceId], patch, now);
      snapshots := snapshots[deviceId := next];
      if deviceId in silenceFences && patch.version.Some? {
        if next.shadowVersion.None? {
          silenceFences := silenceFences[deviceId := patch.version];
        } else {
          silenceFences := silenceFences - {deviceId};
        }
      }
      assert EntryOf(deviceId) == Patched(old(EntryOf(deviceId)), patch, now);
      assert forall d :: d != deviceId ==> EntryOf(d) == old(EntryOf(d));
      return true;
    }

    method ReleaseShadowSource(deviceId: string, reason: Reason)
      requires Valid()
      modifies this
      ensures Valid()
      ensures EntryOf(deviceId) == Released(old(EntryOf(deviceId)), reason)
      ensures forall d :: d != deviceId ==> EntryOf(d) == old(EntryOf(d))
      ensures snapshots.Keys == old(snapshots.Keys)
    {
      if reason.Disconnect? {
        silenceFences := silenceFences - {deviceId};
      }
      if deviceId in snapshots {
        var snapshot := snapshots[deviceId];
        if reason.Silence? && deviceId !in silenceFences {
          silenceFences := silenceFences[deviceId := snapshot.shadowVersion];
        }
        snapshots := snapshots[deviceId := snapshot.(shadowVersion := None)];
      }
      assert forall d :: d != deviceId ==> EntryOf(d) == old(EntryOf(d));
    }

    method Remove(deviceId: string)
      requires Valid()
      modifies this
      ensures Valid()
      ensures EntryOf(deviceId) == Unknown
      ensures forall d :: d != deviceId ==> EntryOf(d) == old(EntryOf(d))
      ensures snapshots.Keys == old(snapshots.Keys) - {deviceId}
    {
      snapshots := snapshots - {deviceId};
      silenceFences := silenceFences - {deviceId};
      assert forall d :: d != deviceId ==> EntryOf(d) == old(EntryOf(d));
    }
  }
}
