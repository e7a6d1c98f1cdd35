/**
 * How one account's inventories, shadow messages and removals meet the store, the
 * silence stamps and the absence counts (`src/runtime/accountRuntime.ts`).
 *
 * Each device goes its own way, so what one event does is stated per device; the
 * class applies whole inventories and is proved to do exactly that to every device.
 */
module AccountMonitoring {
  import opened Wrappers
  import opened Telemetry
  import opened DeviceState
  import opened MonitoringHealth
  import opened ArrivalAnchors
  import opened Reconciliation

  /** Everything the runtime holds about one device, but its absence count. */
  datatype View = View(entry: Entry, arrival: Option<int>, anchor: Option<int>)

  function ReleasedIfSilent(v: View, now: Clocks): View {
    if IsSilent(v.arrival, v.anchor, now) then v.(entry := Released(v.entry, Silence)) else v
  }

  function Admitted(v: View, now: Clocks): View {
    v.(arrival := if v.arrival.Some? then v.arrival else Some(now.monotonic),
       anchor := if v.anchor.Some? then v.anchor else Some(now.wall))
  }

  function Listed(v: View, body: ApiDevice, now: Clocks): View {
    var admitted := Admitted(v, now);
    admitted.(entry := Discovered(admitted.entry, body, now.wall))
  }

  /** The bodies of one inventory, in order, applied to the one device they all name. */
  function ListedAll(v: View, bodies: seq<ApiDevice>, now: Clocks): View
    decreases |bodies|
  {
    if bodies == [] then v else Listed(ListedAll(v, bodies[..|bodies| - 1], now), bodies[|bodies| - 1], now)
  }

  /** A poll releases a silent device first and writes its bodies after. */
  function Polled(v: View, bodies: seq<ApiDevice>, now: Clocks): View {
    ListedAll(ReleasedIfSilent(v, now), bodies, now)
  }

  function Messaged(v: View, patch: Patch, now: Clocks): View {
    var entry := Patched(v.entry, patch, now.wall);
    if Accepts(v.entry, patch) && HasTelemetryReading(patch) then
      View(entry, Some(now.monotonic), Some(now.wall))
    else
      v.(entry := entry)
  }

  function Disconnected(v: View): View {
    v.(entry := Released(v.entry, Disconnect))
  }

  /** A committed removal; the store is dropped with the accessory when the platform had published one. */
  function RemovedView(v: View, published: bool): View {
    View(if published then Unknown else v.entry, None, None)
  }

  datatype Event =
    | Poll(bodies: seq<ApiDevice>, now: Clocks)
    | Message(patch: Patch, now: Clocks)
    | Disconnects
    | Removes(published: bool)

  function Step(v: View, e: Event): View {
    match e
    case Poll(bodies, now) => Polled(v, bodies, now)
    case Message(patch, now) => Messaged(v, patch, now)
    case Disconnects => Disconnected(v)
    case Removes(published) => RemovedView(v, published)
  }

  function Run(v: View, es: seq<Event>): View {
    if es == [] then v else Step(Run(v, es[..|es| - 1]), es[|es| - 1])
  }

  /** Telemetry the shadow owns is never covered by an anchor alone. */
  ghost predicate Covered(v: View) {
    Sound(v.entry) && (Owned(v.entry) && v.anchor.Some? ==> v.arrival.Some?)
  }

  lemma {:induction false} ListingKeepsCovered(v: View, bodies: seq<ApiDevice>, now: Clocks)
    requires Covered(v)
    ensures Covered(ListedAll(v, bodies, now))
    decreases |bodies|
  {
    if bodies != [] {
      ListingKeepsCovered(v, bodies[..|bodies| - 1], now);
    }
  }

  lemma StepKeepsCovered(v: View, e: Event)
    requires Covered(v)
    ensures Covered(Step(v, e))
  {
    if e.Poll? {
      ListingKeepsCovered(ReleasedIfSilent(v, e.now), e.bodies, e.now);
    }
  }

  lemma {:induction false} RunKeepsCovered(v: View, es: seq<Event>)
    requires Covered(v)
    ensures Covered(Run(v, es))
    decreases |es|
  {
    if es != [] {
      RunKeepsCovered(v, es[..|es| - 1]);
      StepKeepsCovered(Run(v, es[..|es| - 1]), es[|es| - 1]);
    }
  }

  /** Heard within the silence window on both clocks. */
  ghost predicate HeardLately(v: View, now: Clocks) {
    && v.arrival.Some? && now.monotonic - v.arrival.value < SILENCE_MS
    && v.anchor.Some? && now.wall - v.anchor.value < SILENCE_MS
  }

  /** The reading a poll leaves is the poll's own body, or shadow telemetry that is still being heard. */
  ghost predicate Current(v: View, body: ApiDevice, now: Clocks) {
    && v.entry.snapshot.Some?
    && (v.entry.snapshot.value.data == body.data || (Owned(v.entry) && HeardLately(v, now)))
  }

  lemma {:induction false} ListingLeavesCurrent(v: View, bodies: seq<ApiDevice>, now: Clocks)
    requires Covered(v) && !(Owned(v.entry) && IsSilent(v.arrival, v.anchor, now))
    ensures bodies != [] ==> Current(ListedAll(v, bodies, now), bodies[|bodies| - 1], now)
    ensures Owned(ListedAll(v, bodies, now).entry) <==> Owned(v.entry)
    ensures bodies != [] && Owned(v.entry) ==> HeardLately(ListedAll(v, bodies, now), now)
    ensures bodies == [] ==> ListedAll(v, bodies, now) == v
    decreases |bodies|
  {
    if bodies != [] {
      var before := bodies[..|bodies| - 1];
      ListingLeavesCurrent(v, before, now);
      if before == [] && v.arrival.Some? {
        SilentOnEitherClock(v.arrival.value, v.anchor, now);
      }
    }
  }

  /** Any device, before anything happened to it in this process; its anchor may come from disk. */
  function Start(anchor: Option<int>): View {
    View(Unknown, None, anchor)
  }

  /**
   * After every successful poll, whatever messages, polls, disconnects and
   * removals came before it, each listed device's telemetry is exactly that poll's
   * body, or it is shadow-owned and was last heard less than two heartbeat
   * intervals ago on the forward-only clock and on the wall anchor.
   */
  lemma EveryPollLeavesCurrentTelemetry(restored: Option<int>, es: seq<Event>, bodies: seq<ApiDevice>, now: Clocks)
    requires bodies != []
    ensures Current(Run(Start(restored), es + [Poll(bodies, now)]), bodies[|bodies| - 1], now)
  {
    var v := Run(Start(restored), es);
    RunKeepsCovered(Start(restored), es);
    assert (es + [Poll(bodies, now)])[..|es|] == es;
    var released := ReleasedIfSilent(v, now);
    assert Covered(released);
    ListingLeavesCurrent(released, bodies, now);
  }

  /** A poll that lists a device leaves the shadow its owner exactly when it was, and was heard within the window on both clocks. */
  lemma PollsKeepOwnersExactlyWhen(restored: Option<int>, es: seq<Event>, bodies: seq<ApiDevice>, now: Clocks)
    ensures var v := Run(Start(restored), es);
            Owned(Run(Start(restored), es + [Poll(bodies, now)]).entry) <==>
              && Owned(v.entry)
              && (v.arrival.Some? ==> now.monotonic - v.arrival.value < 2 * 898_000 && (v.anchor.Some? ==> now.wall - v.anchor.value < 2 * 898_000))
  {
    var v := Run(Start(restored), es);
    RunKeepsCovered(Start(restored), es);
    assert (es + [Poll(bodies, now)])[..|es|] == es;
    var released := ReleasedIfSilent(v, now);
    ListingLeavesCurrent(released, bodies, now);
    if v.arrival.Some? {
      SilentOnEitherClock(v.arrival.value, v.anchor, now);
    }
  }

  /** A message renews liveness on both clocks exactly when it is an accepted reading, and never moves another part of the stamp. */
  lemma MessagesRenewExactlyWhen(v: View, patch: Patch, now: Clocks)
    ensures var t := Step(v, Message(patch, now));
            && t.entry == Patched(v.entry, patch, now.wall)
            && (if Accepts(v.entry, patch) && patch.data.Some? && patch.data.value != map[] then
                  t.arrival == Some(now.monotonic) && t.anchor == Some(now.wall)
                else
                  t.arrival == v.arrival && t.anchor == v.anchor)
  {
  }

  /** The end of the connection hands the device back at once, with no fence; a removal forgets both clocks, and the store when it was published. */
  lemma EndsForget(v: View, published: bool)
    ensures !Owned(Step(v, Disconnects).entry) && Step(v, Disconnects).entry.fence.Unfenced?
    ensures Step(v, Disconnects).arrival == v.arrival && Step(v, Disconnects).anchor == v.anchor
    ensures Step(v, Removes(published)).arrival.None? && Step(v, Removes(published)).anchor.None?
    ensures Step(v, Removes(published)).entry == if published then Unknown else v.entry
  {
  }

  // ---- What the stamp means ----

  /**
   * When the device was last heard, told by the events alone: the latest accepted
   * reading, or its admission by a poll when nothing was heard since it was last removed.
   */
  function LastHeard(v: View, es: seq<Event>): Option<int>
    decreases |es|
  {
    if es == [] then
      v.arrival
    else
      var before, e := es[..|es| - 1], es[|es| - 1];
      var heard := LastHeard(v, before);
      match e
      case Poll(bodies, now) => if heard.None? && bodies != [] then Some(now.monotonic) else heard
      case Message(patch, now) =>
        if Accepts(Run(v, before).entry, patch) && HasTelemetryReading(patch) then Some(now.monotonic) else heard
      case Disconnects => heard
      case Removes(_) => None
  }

  lemma {:induction false} ListingAdmitsOnce(v: View, bodies: seq<ApiDevice>, now: Clocks)
    ensures ListedAll(v, bodies, now).arrival == if v.arrival.None? && bodies != [] then Some(now.monotonic) else v.arrival
    ensures ListedAll(v, bodies, now).anchor == if v.anchor.None? && bodies != [] then Some(now.wall) else v.anchor
    ensures Owned(ListedAll(v, bodies, now).entry) <==> Owned(v.entry)
    decreases |bodies|
  {
    if bodies != [] {
      ListingAdmitsOnce(v, bodies[..|bodies| - 1], now);
    }
  }

  /** The stamp the silence window is measured from is the time the device was last heard. */
  lemma {:induction false} StampIsLastHeard(v: View, es: seq<Event>)
    ensures Run(v, es).arrival == LastHeard(v, es)
    decreases |es|
  {
    if es != [] {
      var before, e := es[..|es| - 1], es[|es| - 1];
      StampIsLastHeard(v, before);
      if e.Poll? {
        ListingAdmitsOnce(ReleasedIfSilent(Run(v, before), e.now), e.bodies, e.now);
      }
    }
  }

  /** The wall reading of the same moment. */
  function LastHeardWall(v: View, es: seq<Event>): Option<int>
    decreases |es|
  {
    if es == [] then
      v.anchor
    else
      var before, e := es[..|es| - 1], es[|es| - 1];
      var heard := LastHeardWall(v, before);
      match e
      case Poll(bodies, now) => if heard.None? && bodies != [] then Some(now.wall) else heard
      case Message(patch, now) =>
        if Accepts(Run(v, before).entry, patch) && HasTelemetryReading(patch) then Some(now.wall) else heard
      case Disconnects => heard
      case Removes(_) => None
  }

  /**
   * The other half of the window: the wall anchor is the wall reading of the time the
   * device was last heard, whatever anchor the process was restored with.
   */
  lemma {:induction false} AnchorIsLastHeard(v: View, es: seq<Event>)
    ensures Run(v, es).anchor == LastHeardWall(v, es)
    decreases |es|
  {
    if es != [] {
      var before, e := es[..|es| - 1], es[|es| - 1];
      AnchorIsLastHeard(v, before);
      if e.Poll? {
        ListingAdmitsOnce(ReleasedIfSilent(Run(v, before), e.now), e.bodies, e.now);
      }
    }
  }

  /** The latest accepted reading of the run, or admission since the last removal, and nothing an earlier process left. */
  function HeardThisRun(v: View, es: seq<Event>): Option<int>
    decreases |es|
  {
    if es == [] then
      None
    else
      var before, e := es[..|es| - 1], es[|es| - 1];
      var heard := HeardThisRun(v, before);
      match e
      case Poll(bodies, now) => if heard.None? && bodies != [] then Some(now.wall) else heard
      case Message(patch, now) =>
        if Accepts(Run(v, before).entry, patch) && HasTelemetryReading(patch) then Some(now.wall) else heard
      case Disconnects => heard
      case Removes(_) => None
  }

  /**
   * While the shadow owns a device's telemetry, its anchor comes from this run: an
   * anchor an earlier process left vouches for a device only until it is owned.
   */
  lemma {:induction false} OwnedAnchorsAreFromThisRun(restored: Option<int>, es: seq<Event>)
    ensures Owned(Run(Start(restored), es).entry) ==> Run(Start(restored), es).anchor == HeardThisRun(Start(restored), es)
    decreases |es|
  {
    if es != [] {
      var before, e := es[..|es| - 1], es[|es| - 1];
      OwnedAnchorsAreFromThisRun(restored, before);
      if e.Poll? {
        ListingAdmitsOnce(ReleasedIfSilent(Run(Start(restored), before), e.now), e.bodies, e.now);
      }
    }
  }

  // ---- The runtime over its collaborators ----

  function Bodies(devices: seq<ApiDevice>, deviceId: string): seq<ApiDevice>
    decreases |devices|
  {
    if devices == [] then []
    else
      var last := devices[|devices| - 1];
      var before := Bodies(devices[..|devices| - 1], deviceId);
      if last.identity.deviceId == deviceId then before + [last] else before
  }

  function IdsOf(devices: seq<ApiDevice>): seq<string> {
    seq(|devices|, i requires 0 <= i < |devices| => devices[i].identity.deviceId)
  }

  /** What a committed removal, a refused one and a reappearance leave of one confirmed device. */
  datatype Outcome = Untouched | Reappeared | Refused | Committed

  function OutcomeOf(deviceId: string, confirmed: set<string>, stillPresent: set<string>, refused: set<string>): Outcome {
    if deviceId !in confirmed then Untouched
    else if deviceId in stillPresent then Reappeared
    else if deviceId in refused then Refused
    else Committed
  }

  /** The device was known, and the two latest trustworthy inventories, of which `present` is the second, both omit it. */
  ghost predicate TwiceOmitted(events: seq<Reconciliation.Event>, present: set<string>, deviceId: string) {
    && deviceId !in present
    && exists shown, omitted :: OmittedSinceShown(events, deviceId, shown, omitted)
  }

  ghost predicate OmittedSinceShown(events: seq<Reconciliation.Event>, deviceId: string, shown: nat, omitted: nat) {
    LastShown(events, deviceId, shown) && shown < omitted && LatestInventory(events, omitted) && Omits(events[omitted], deviceId)
  }

  /**
   * A removal commits exactly when the device was seen or known before, the two
   * latest trustworthy inventories both omit it, the same poll's extra fetch omits
   * it too, and HomeKit does not refuse.
   */
  lemma RemovalCommitsExactlyWhen(
    events: seq<Reconciliation.Event>, present: set<string>, stillPresent: set<string>, refused: set<string>, deviceId: string)
    ensures OutcomeOf(deviceId, Confirmed(Reconciliation.Run(events), present), stillPresent, refused).Committed? <==>
              TwiceOmitted(events, present, deviceId) && deviceId !in stillPresent && deviceId !in refused
  {
    var confirmed := Confirmed(Reconciliation.Run(events), present);
    if deviceId in confirmed {
      var shown, omitted := ConfirmedMeansTwiceOmitted(events, present, deviceId);
      assert OmittedSinceShown(events, deviceId, shown, omitted);
    }
    if TwiceOmitted(events, present, deviceId) {
      var shown, omitted :| OmittedSinceShown(events, deviceId, shown, omitted);
      TwiceOmittedIsConfirmed(events, present, deviceId, shown, omitted);
    }
  }

  class AccountRuntime {
    const store: DeviceStateStore
    const health: Health
    const reconciliation: AbsenceTracker

    constructor (anchors: AnchorStore)
      ensures fresh(store) && fresh(health) && fresh(reconciliation) && health.anchors == anchors
      ensures store.Valid() && reconciliation.absenceCounts == map[]
      ensures forall d :: ViewOf(d) == Start(anchors.Get(d))
    {
      store := new DeviceStateStore();
      health := new Health(anchors);
      reconciliation := new AbsenceTracker();
    }

    function ViewOf(deviceId: string): View
      reads store, health, health.anchors
    {
      View(store.EntryOf(deviceId), health.Arrival(deviceId), health.anchors.Get(deviceId))
    }

    method OnReportedPatch(deviceId: string, patch: Patch, now: Clocks)
      requires store.Valid()
      modifies store, health, health.anchors`anchors
      ensures store.Valid()
      ensures ViewOf(deviceId) == Messaged(old(ViewOf(deviceId)), patch, now)
      ensures forall d :: d != deviceId ==> ViewOf(d) == old(ViewOf(d))
    {
      var known := deviceId in store.snapshots;
      var accepted := store.ApplyReportedPatch(deviceId, patch, now.wall);
      if known && accepted && HasTelemetryReading(patch) {
        health.RecordShadowMessage(deviceId, now);
      }
    }

    /** The connection carried every device, so its end hands back the whole fleet. */
    method OnDisconnected()
      requires store.Valid()
      modifies store
      ensures store.Valid()
      ensures forall d :: ViewOf(d) == if d in old(store.snapshots) then Disconnected(old(ViewOf(d))) else old(ViewOf(d))
    {
      var todo := store.snapshots.Keys;
      while todo != {}
        invariant store.Valid() && todo <= old(store.snapshots.Keys) == store.snapshots.Keys
        invariant forall d :: ViewOf(d) == if d in old(store.snapshots) && d !in todo then Disconnected(old(ViewOf(d))) else old(ViewOf(d))
        decreases todo
      {
        var d :| d in todo;
        store.ReleaseShadowSource(d, Disconnect);
        todo := todo - {d};
      }
    }

    method ReleaseSilentDevices(now: Clocks)
      requires store.Valid()
      modifies store
      ensures store.Valid()
      ensures forall d :: ViewOf(d) == ReleasedIfSilent(old(ViewOf(d)), now)
    {
      var silent := health.SilentDevices(now);
      var todo := silent;
      while todo != {}
        invariant store.Valid() && todo <= silent
        invariant forall d :: ViewOf(d) == if d in silent && d !in todo then ReleasedIfSilent(old(ViewOf(d)), now) else old(ViewOf(d))
        decreases todo
      {
        var d :| d in todo;
        store.ReleaseShadowSource(d, Silence);
        todo := todo - {d};
      }
    }

    /** The part of applying one inventory that runs before anything is awaited. */
    method ApplyInventory(devices: seq<ApiDevice>, now: Clocks) returns (confirmedAbsent: set<string>)
      requires store.Valid()
      modifies store, health, health.anchors`anchors, reconciliation
      ensures store.Valid()
      ensures forall d :: ViewOf(d) == Polled(old(ViewOf(d)), Bodies(devices, d), now)
      ensures reconciliation.absenceCounts == Counted(old(reconciliation.absenceCounts), set d | d in IdsOf(devices))
      ensures confirmedAbsent == Confirmed(old(reconciliation.absenceCounts), set d | d in IdsOf(devices))
    {
      ReleaseSilentDevices(now);
      assert forall d :: Bodies(devices[..0], d) == [];
      for i := 0 to |devices|
        invariant store.Valid()
        invariant reconciliation.absenceCounts == old(reconciliation.absenceCounts)
        invariant forall d :: ViewOf(d) == Polled(old(ViewOf(d)), Bodies(devices[..i], d), now)
      {
        ghost var here := devices[..i + 1];
        assert here[..i] == devices[..i];
        var device := devices[i];
        health.AdmitDevice(device.identity.deviceId, now);
        var _ := store.ApplyDiscovery(device, now.wall);
      }
      assert devices[..|devices|] == devices;
      confirmedAbsent := reconciliation.Observe(IdsOf(devices));
    }

    /** One confirmed device, decided by the extra fetch; `refuses` says HomeKit throws on its removal. */
    method Resolve(deviceId: string, stillPresent: bool, refuses: bool, published: bool) returns (outcome: Outcome)
      requires store.Valid()
      modifies store, health, health.anchors`anchors, reconciliation
      ensures store.Valid()
      ensures outcome == if stillPresent then Reappeared else if refuses then Refused else Committed
      ensures ViewOf(deviceId) == if outcome.Committed? then RemovedView(old(ViewOf(deviceId)), published) else old(ViewOf(deviceId))
      ensures forall d :: d != deviceId ==> ViewOf(d) == old(ViewOf(d))
      ensures var counts := old(reconciliation.absenceCounts);
              reconciliation.absenceCounts == if outcome.Committed? then counts - {deviceId}
                                              else if outcome.Reappeared? then counts[deviceId := 0]
                                              else counts
    {
      if stillPresent {
        reconciliation.Present(deviceId);
        return Reappeared;
      }
      if refuses {
        return Refused;
      }
      if published {
        store.Remove(deviceId);
      }
      reconciliation.Forget(deviceId);
      health.ForgetDevice(deviceId);
      health.anchors.Forget(deviceId);
      return Committed;
    }

    /** The final check, after its fetch answered and while the runtime still runs. */
    method CommitRemovals(confirmedAbsent: set<string>, stillPresent: set<string>, refused: set<string>, published: set<string>)
      requires store.Valid()
      modifies store, health, health.anchors`anchors, reconciliation
      ensures store.Valid()
      ensures forall d :: var outcome := OutcomeOf(d, confirmedAbsent, stillPresent, refused);
                ViewOf(d) == if outcome.Committed? then RemovedView(old(ViewOf(d)), d in published) else old(ViewOf(d))
      ensures forall d :: var outcome := OutcomeOf(d, confirmedAbsent, stillPresent, refused);
                var counts := old(reconciliation.absenceCounts);
                && (outcome.Committed? ==> d !in reconciliation.absenceCounts)
                && (outcome.Reappeared? ==> d in reconciliation.absenceCounts && reconciliation.absenceCounts[d] == 0)
                && (outcome.Refused? || outcome.Untouched? ==>
                      (d in reconciliation.absenceCounts <==> d in counts)
                      && (d in counts ==> reconciliation.absenceCounts[d] == counts[d]))
    {
      var todo := confirmedAbsent;
      while todo != {}
        invariant store.Valid() && todo <= confirmedAbsent
        invariant forall d :: var outcome := OutcomeOf(d, confirmedAbsent - todo, stillPresent, refused);
                    ViewOf(d) == if outcome.Committed? then RemovedView(old(ViewOf(d)), d in published) else old(ViewOf(d))
        invariant forall d :: var outcome := OutcomeOf(d, confirmedAbsent - todo, stillPresent, refused);
                    var counts := old(reconciliation.absenceCounts);
                    && (outcome.Committed? ==> d !in reconciliation.absenceCounts)
                    && (outcome.Reappeared? ==> d in reconciliation.absenceCounts && reconciliation.absenceCounts[d] == 0)
                    && (outcome.Refused? || outcome.Untouched? ==>
                          (d in reconciliation.absenceCounts <==> d in counts)
                          && (d in counts ==> reconciliation.absenceCounts[d] == counts[d]))
        decreases todo
      {
        var d :| d in todo;
        var _ := Resolve(d, d in stillPresent, d in refused, d in published);
        todo := todo - {d};
      }
      assert confirmedAbsent - todo == confirmedAbsent;
    }
  }
}
