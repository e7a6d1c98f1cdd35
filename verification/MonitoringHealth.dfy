/**
 * What the plugin can say about its own sight (`src/runtime/monitoringHealth.ts`):
 * a run of failed polls for the account, and one silence per device, measured on a
 * forward-only clock and on a wall anchor that survives a restart.
 */
module MonitoringHealth {
  import opened Wrappers
  import opened ArrivalAnchors

  const REST_FAILURE_THRESHOLD := 2
  const HEARTBEAT_INTERVAL_MS := 898_000
  const MISSED_HEARTBEATS_BEFORE_SILENT := 2
  const SILENCE_MS := HEARTBEAT_INTERVAL_MS * MISSED_HEARTBEATS_BEFORE_SILENT

  /** One reading of both clocks. */
  datatype Clocks = Clocks(monotonic: int, wall: int)

  function Max(a: int, b: int): int {
    if a < b then b else a
  }

  function SilenceElapsedMs(arrivedAt: int, anchor: Option<int>, now: Clocks): int {
    var forwardOnly := now.monotonic - arrivedAt;
    if anchor.None? then forwardOnly else Max(forwardOnly, now.wall - anchor.value)
  }

  predicate IsSilent(arrival: Option<int>, anchor: Option<int>, now: Clocks) {
    arrival.Some? && SilenceElapsedMs(arrival.value, anchor, now) >= SILENCE_MS
  }

  /** A device is heard exactly while both of its clocks are inside the window. */
  lemma SilentOnEitherClock(arrival: int, anchor: Option<int>, now: Clocks)
    ensures !IsSilent(Some(arrival), anchor, now) <==>
              && now.monotonic - arrival < 2 * 898_000
              && (anchor.Some? ==> now.wall - anchor.value < 2 * 898_000)
  {
  }

  function NextRestFailures(failures: nat, succeeded: bool): nat {
    if succeeded then 0 else failures + 1
  }

  /** How many polls in a row have failed by the end of a run of polls. */
  function RestFailures(outcomes: seq<bool>): nat {
    if outcomes == [] then 0 else NextRestFailures(RestFailures(outcomes[..|outcomes| - 1]), outcomes[|outcomes| - 1])
  }

  /** Polling is degraded exactly when the two latest polls failed. */
  lemma RestIsDegradedExactlyWhen(outcomes: seq<bool>)
    ensures RestFailures(outcomes) >= REST_FAILURE_THRESHOLD <==>
              |outcomes| >= 2 && !outcomes[|outcomes| - 1] && !outcomes[|outcomes| - 2]
  {
    if |outcomes| >= 2 {
      var before := outcomes[..|outcomes| - 1];
      assert before[|before| - 1] == outcomes[|outcomes| - 2];
      assert RestFailures(before) == NextRestFailures(RestFailures(before[..|before| - 1]), before[|before| - 1]);
    } else if |outcomes| == 1 {
      assert outcomes[..0] == [];
    }
  }

  class Health {
    const anchors: AnchorStore
    var consecutiveRestFailures: nat
    var lastShadowArrival: map<string, int>

    constructor (anchors: AnchorStore)
      ensures this.anchors == anchors && consecutiveRestFailures == 0 && lastShadowArrival == map[]
    {
      this.anchors := anchors;
      consecutiveRestFailures := 0;
      lastShadowArrival := map[];
    }

    function Arrival(deviceId: string): Option<int>
      reads this
    {
      if deviceId in lastShadowArrival then Some(lastShadowArrival[deviceId]) else None
    }

    function SilentDevices(now: Clocks): (silent: set<string>)
      reads this, anchors
      ensures forall d :: d in silent <==> IsSilent(Arrival(d), anchors.Get(d), now)
    {
      set d | d in lastShadowArrival && IsSilent(Arrival(d), anchors.Get(d), now)
    }

    predicate RestDegraded()
      reads this
    {
      consecutiveRestFailures >= REST_FAILURE_THRESHOLD
    }

    method RecordRest(succeeded: bool)
      modifies `consecutiveRestFailures
      ensures consecutiveRestFailures == NextRestFailures(old(consecutiveRestFailures), succeeded)
    {
      consecutiveRestFailures := if succeeded then 0 else consecutiveRestFailures + 1;
    }

    method RecordShadowMessage(deviceId: string, now: Clocks)
      modifies `lastShadowArrival, anchors`anchors
      ensures Arrival(deviceId) == Some(now.monotonic) && anchors.Get(deviceId) == Some(now.wall)
      ensures forall d :: d != deviceId ==> Arrival(d) == old(Arrival(d)) && anchors.Get(d) == old(anchors.Get(d))
    {
      lastShadowArrival := lastShadowArrival[deviceId := now.monotonic];
      anchors.Record(deviceId, now.wall);
    }

    method AdmitDevice(deviceId: string, now: Clocks)
      modifies `lastShadowArrival, anchors`anchors
      ensures Arrival(deviceId) == if old(Arrival(deviceId)).Some? then old(Arrival(deviceId)) else Some(now.monotonic)
      ensures anchors.Get(deviceId) == if old(anchors.Get(deviceId)).Some? then old(anchors.Get(deviceId)) else Some(now.wall)
      ensures forall d :: d != deviceId ==> Arrival(d) == old(Arrival(d)) && anchors.Get(d) == old(anchors.Get(d))
    {
      if deviceId !in lastShadowArrival {
        lastShadowArrival := lastShadowArrival[deviceId := now.monotonic];
      }
      var anchor := anchors.Get(deviceId);
      if anchor.None? {
        anchors.Record(deviceId, now.wall);
      }
    }

    method ForgetDevice(deviceId: string)
      modifies `lastShadowArrival
      ensures Arrival(deviceId).None?
      ensures forall d :: d != deviceId ==> Arrival(d) == old(Arrival(d))
    {
      lastShadowArrival := lastShadowArrival - {deviceId};
    }
  }
}
