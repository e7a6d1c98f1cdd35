/**
 * The pump record against a physical backup pump.
 *
 * The device numbers its runs and publishes a run's timestamp after that run stops
 * and before the next one starts. A decoded pump group carries the latest published
 * timestamp, or withholds it. Under any sampling, withholding, undecoded snapshots,
 * failed writes and restarts the record obeys one conservation law. A run is counted
 * twice only where a withheld older timestamp is handed to a run whose own timestamp
 * is still out; a device that never withholds never does that.
 */
module PumpSimulation {
  import opened Wrappers
  import opened PumpRecords

  /** `stamps[k]` is the timestamp of run k; `begun` counts every run that ever started. */
  datatype Device = Device(running: bool, begun: nat, stamps: seq<int>)

  ghost predicate Plausible(d: Device) {
    && |d.stamps| <= d.begun <= |d.stamps| + 1
    && (d.running ==> d.begun == |d.stamps| + 1)
    && (forall i, j :: 0 <= i < j < |d.stamps| ==> d.stamps[i] < d.stamps[j])
  }

  function Latest(stamps: seq<int>): Option<int> {
    if stamps == [] then None else Some(stamps[|stamps| - 1])
  }

  /**
   * What one record lineage has seen of the device.
   *
   * `first` is how many timestamps were published at its first decoded snapshot,
   * `seen` at the latest one that showed a timestamp, `base` how many of them it
   * declined to count as its baseline, and `missed` how many after that never
   * appeared in a snapshot. `pending` is how many runs it watched start since it
   * last saw a new timestamp, `lastEdge` the number of the latest of them, and
   * `surplus` how many timestamps it took for a run they did not belong to.
   */
  datatype Track = Track(
    first: Option<nat>, seen: nat, base: nat, missed: nat,
    pending: nat, lastEdge: nat, surplus: nat)

  const Fresh := Track(None, 0, 0, 0, 0, 0, 0)

  datatype World = World(device: Device, memory: Memory, held: Track, stored: Track)

  datatype Event =
    | RunStarts
    | RunStops
    | Publishes(at: int)
    // An undecoded pump group reports nothing; a decoded one shows the latest timestamp or withholds it.
    | Snapshot(pumpDecoded: bool, shows: bool, receivedAt: int, primaryRunning: bool, testRunning: Option<bool>, testedAt: Option<int>, writeFails: bool)
    | Restarts

  ghost predicate Enabled(w: World, e: Event) {
    match e
    case RunStarts => !w.device.running && w.device.begun == |w.device.stamps|
    case RunStops => w.device.running
    case Publishes(at) =>
      && !w.device.running
      && w.device.begun == |w.device.stamps| + 1
      && (w.device.stamps == [] || at > w.device.stamps[|w.device.stamps| - 1])
    case Snapshot(_, _, _, _, _, _, _) => true
    case Restarts => true
  }

  function ObservationOf(d: Device, e: Event): Observation
    requires e.Snapshot?
  {
    if e.pumpDecoded then
      Observation(e.receivedAt, Some(e.primaryRunning), Some(d.running), if e.shows then Latest(d.stamps) else None, e.testRunning, e.testedAt)
    else
      Observation(e.receivedAt, None, None, None, e.testRunning, e.testedAt)
  }

  predicate Awaits(r: Option<Record>) {
    r.Some? && r.value.watermarks.awaitingTimestamp
  }

  /** The runs a new timestamp is accounted against start here: at the last one seen, or at the first snapshot. */
  function WindowStart(t: Track): nat {
    if t.seen > 0 then t.seen else if t.first.Some? then t.first.value else 0
  }

  /** The run last watched has not published, so a timestamp shown now belongs to an older one. */
  predicate HandsOver(t: Track, published: nat) {
    published > t.seen && t.pending > 0 && t.lastEdge == published
  }

  function Advanced(t: Track, shows: bool, published: nat): Track {
    var known := if t.first.None? then t.(first := Some(published)) else t;
    if !shows || published <= t.seen then
      known
    else if t.pending == 0 && t.seen == 0 then
      known.(seen := published, base := published)
    else
      var matched := if HandsOver(t, published) then t.pending - 1 else if t.pending > 0 then t.pending else 1;
      var start := WindowStart(known);
      known.(seen := published,
             base := if t.seen == 0 then start else t.base,
             missed := t.missed + if published >= start + matched then published - start - matched else 0,
             pending := 0,
             surplus := t.surplus + if HandsOver(t, published) then 1 else 0)
  }

  function Edged(t: Track, previous: Option<bool>, d: Device): Track {
    if previous == Some(false) && d.running && d.begun > 0 then t.(pending := t.pending + 1, lastEdge := d.begun - 1) else t
  }

  function SeenBy(w: World, e: Event): Track
    requires e.Snapshot?
  {
    if e.pumpDecoded then
      Edged(Advanced(w.held, e.shows, |w.device.stamps|), w.memory.previousBackupRunning, w.device)
    else
      w.held
  }

  function Step(w: World, e: Event): World {
    match e
    case RunStarts => w.(device := w.device.(running := true, begun := w.device.begun + 1))
    case RunStops => w.(device := w.device.(running := false))
    case Publishes(at) => w.(device := w.device.(stamps := w.device.stamps + [at]))
    case Snapshot(_, _, _, _, _, _, writeFails) =>
      var memory := Observed(w.memory, ObservationOf(w.device, e), writeFails);
      World(w.device, memory, SeenBy(w, e), if memory.pendingPersist then w.stored else SeenBy(w, e))
    case Restarts =>
      var memory := Restarted(w.memory);
      var lineage := if memory.record.Some? then w.stored else Fresh;
      World(w.device, memory, lineage, lineage)
  }

  /** The record agrees with what its lineage has seen: nothing seen is lost, and only the surplus is counted twice. */
  ghost predicate Accounts(r: Option<Record>, t: Track, d: Device) {
    match r
    case None => t == Fresh
    case Some(record) =>
      && t.base <= t.seen <= |d.stamps|
      && (t.seen == 0 ==> t.base == 0 && t.missed == 0 && t.surplus == 0)
      && (t.first.None? ==> t.seen == 0 && t.pending == 0)
      && (t.first.Some? ==> t.first.value <= if t.seen == 0 then |d.stamps| else t.base)
      && (record.watermarks.awaitingTimestamp <==> t.pending > 0)
      && (t.pending > 0 ==> t.lastEdge < d.begun && t.pending <= t.lastEdge + 1 - WindowStart(t))
      && record.watermarks.backupPumpTimestamp == Latest(d.stamps[..t.seen])
      && record.backup.activationCount + t.missed == t.seen - t.base + t.pending + t.surplus
  }

  /** The latest run watched has stopped once the reducer saw the pump idle again. */
  ghost predicate EdgeIsCurrent(w: World) {
    w.memory.previousBackupRunning == Some(false) && w.held.pending > 0 && w.held.lastEdge + 1 == w.device.begun ==>
      !w.device.running
  }

  ghost predicate Inv(w: World) {
    && Plausible(w.device)
    && Accounts(w.memory.record, w.held, w.device)
    && Accounts(w.memory.persisted, w.stored, w.device)
    && (w.memory.record.None? ==> w.memory.previousBackupRunning.None?)
    && EdgeIsCurrent(w)
    && InSync(w.memory)
    && (!w.memory.pendingPersist && w.memory.record.Some? ==> w.held == w.stored)
  }

  lemma DeviceMovesKeepInv(w: World, e: Event)
    requires Inv(w) && Enabled(w, e)
    requires e.RunStarts? || e.RunStops? || e.Publishes?
    ensures Inv(Step(w, e))
  {
    var d, d' := w.device, Step(w, e).device;
    assert forall n :: 0 <= n <= |d.stamps| ==> d'.stamps[..n] == d.stamps[..n];
  }

  /** The reported timestamp is past the watermark exactly when the device has published since. */
  lemma AdvanceIsVisible(d: Device, seen: nat)
    requires Plausible(d) && seen <= |d.stamps|
    ensures EvidencesAMissedActivation(Latest(d.stamps[..seen]), Latest(d.stamps)) <==> seen < |d.stamps|
    ensures seen == |d.stamps| ==> Latest(d.stamps[..seen]) == Latest(d.stamps)
  {
    if seen == |d.stamps| {
      assert d.stamps[..seen] == d.stamps;
    } else if seen > 0 {
      assert d.stamps[..seen][seen - 1] == d.stamps[seen - 1];
    }
  }

  /** Reconciling the timestamp moves the record exactly as far as its lineage moved. */
  lemma TimestampKeepsAccounts(r: Record, t: Track, d: Device, shows: bool)
    requires Plausible(d) && Accounts(Some(r), t, d)
    ensures var next := AfterTimestamp(r, if shows then Latest(d.stamps) else None);
            && Accounts(Some(next), Advanced(t, shows, |d.stamps|), d)
            && Advanced(t, shows, |d.stamps|).first.Some?
  {
    AdvanceIsVisible(d, t.seen);
    assert d.stamps[..|d.stamps|] == d.stamps;
  }

  /** A run watched to start is one more than the runs watched before it. */
  lemma EdgeKeepsAccounts(r: Record, t: Track, d: Device, previous: Option<bool>, o: Observation)
    requires Plausible(d) && Accounts(Some(r), t, d) && t.first.Some? && o.backupRunning == Some(d.running)
    requires previous == Some(false) && t.pending > 0 && t.lastEdge + 1 == d.begun ==> !d.running
    ensures Accounts(Some(AfterBackupEdge(r, previous, o)), Edged(t, previous, d), d)
  {
  }

  /** Primary activity and the test label are no part of the account. */
  lemma OthersCountNothing(r: Record, next: Record, t: Track, d: Device)
    requires Accounts(Some(r), t, d) && next.backup.activationCount == r.backup.activationCount
    requires next.watermarks.(testTimestamp := r.watermarks.testTimestamp) == r.watermarks
    ensures Accounts(Some(next), t, d)
  {
  }

  lemma DecodedPumpKeepsAccounts(r: Record, w: World, e: Event)
    requires Inv(w) && e.Snapshot? && e.pumpDecoded && Accounts(Some(r), w.held, w.device)
    ensures var o := ObservationOf(w.device, e);
            var edged := AfterBackupEdge(AfterTimestamp(r, o.backupActivatedAt), w.memory.previousBackupRunning, o);
            Accounts(Some(AfterClassification(edged, o, w.memory.previousDeviceTimes)), SeenBy(w, e), w.device)
  {
    var o, previous := ObservationOf(w.device, e), w.memory.previousBackupRunning;
    var counted, advanced := AfterTimestamp(r, o.backupActivatedAt), Advanced(w.held, e.shows, |w.device.stamps|);
    TimestampKeepsAccounts(r, w.held, w.device, e.shows);
    EdgeKeepsAccounts(counted, advanced, w.device, previous, o);
    var edged := AfterBackupEdge(counted, previous, o);
    OthersCountNothing(edged, AfterClassification(edged, o, w.memory.previousDeviceTimes), SeenBy(w, e), w.device);
  }

  lemma SnapshotKeepsAccounts(w: World, e: Event)
    requires Inv(w) && e.Snapshot?
    ensures Accounts(Some(NextRecord(w.memory, ObservationOf(w.device, e))), SeenBy(w, e), w.device)
  {
    var o, m := ObservationOf(w.device, e), w.memory;
    var start := if m.record.None? then Seeded(o.receivedAt) else m.record.value;
    assert w.device.stamps[..0] == [];
    assert Accounts(Some(start), w.held, w.device);
    var primary := AfterPrimaryEdge(start, m.previousPrimaryRunning, o);
    OthersCountNothing(start, primary, w.held, w.device);
    if e.pumpDecoded {
      DecodedPumpKeepsAccounts(primary, w, e);
    } else {
      OthersCountNothing(primary, NextRecord(m, o), w.held, w.device);
    }
  }

  lemma SnapshotKeepsEdge(w: World, e: Event)
    requires Inv(w) && e.Snapshot?
    ensures EdgeIsCurrent(Step(w, e))
  {
  }

  lemma StepKeepsInv(w: World, e: Event)
    requires Inv(w) && Enabled(w, e)
    ensures Inv(Step(w, e))
  {
    match e
    case RunStarts => DeviceMovesKeepInv(w, e);
    case RunStops => DeviceMovesKeepInv(w, e);
    case Publishes(_) => DeviceMovesKeepInv(w, e);
    case Snapshot(_, _, _, _, _, _, _) =>
      SnapshotKeepsAccounts(w, e);
      SnapshotKeepsEdge(w, e);
    case Restarts =>
      if w.memory.persisted.Some? {
        RestartRoundTrip(w.memory);
      }
  }

  ghost predicate Possible(w: World, es: seq<Event>)
    decreases |es|
  {
    es == [] || (Enabled(w, es[0]) && Possible(Step(w, es[0]), es[1..]))
  }

  function Run(w: World, es: seq<Event>): World
    decreases |es|
  {
    if es == [] then w else Run(Step(w, es[0]), es[1..])
  }

  lemma {:induction false} RunKeepsInv(w: World, es: seq<Event>)
    requires Inv(w) && Possible(w, es)
    ensures Inv(Run(w, es))
    decreases |es|
  {
    if es != [] {
      StepKeepsInv(w, es[0]);
      RunKeepsInv(Step(w, es[0]), es[1..]);
    }
  }

  /** A device with any history, and an accessory with no stored record. */
  function FirstStart(d: Device): World {
    World(d, Unstarted, Fresh, Fresh)
  }

  /**
   * The conservation law. After any run of device events, snapshots, failed writes
   * and restarts: activations counted, plus timestamps no snapshot ever showed, are
   * the timestamps seen since the baseline, plus the watched runs whose timestamp is
   * still to come, plus the timestamps taken for a run they did not belong to.
   */
  lemma CountConservation(d: Device, es: seq<Event>)
    requires Plausible(d) && Possible(FirstStart(d), es)
    ensures var w := Run(FirstStart(d), es);
            w.memory.record.Some? ==>
              && w.memory.record.value.backup.activationCount + w.held.missed
                 == w.held.seen - w.held.base + w.held.pending + w.held.surplus
              && w.held.seen + w.held.pending <= w.device.begun
              && (Awaits(w.memory.record) <==> w.held.pending > 0)
  {
    RunKeepsInv(FirstStart(d), es);
  }

  /** A snapshot shows an older timestamp while the run last watched has not published its own. */
  predicate HandsOverAt(w: World, e: Event) {
    e.Snapshot? && e.pumpDecoded && e.shows && HandsOver(w.held, |w.device.stamps|)
  }

  ghost predicate NeverHandsOver(w: World, es: seq<Event>)
    decreases |es|
  {
    es == [] || (!HandsOverAt(w, es[0]) && NeverHandsOver(Step(w, es[0]), es[1..]))
  }

  /** At no point of the run has the record taken a timestamp for a run it did not belong to. */
  ghost predicate NeverSurplus(w: World, es: seq<Event>)
    decreases |es|
  {
    w.held.surplus == 0 && (es == [] || NeverSurplus(Step(w, es[0]), es[1..]))
  }

  lemma StepAddsSurplusExactlyWhen(w: World, e: Event)
    requires w.held.surplus == 0 && w.stored.surplus == 0
    ensures Step(w, e).held.surplus == 0 <==> !HandsOverAt(w, e)
    ensures !HandsOverAt(w, e) ==> Step(w, e).stored.surplus == 0
  {
  }

  /** A timestamp is taken for the wrong run if and only if some snapshot hands an older one over. */
  lemma {:induction false} SurplusExactlyWhenHandedOver(w: World, es: seq<Event>)
    requires w.held.surplus == 0 && w.stored.surplus == 0
    ensures NeverSurplus(w, es) <==> NeverHandsOver(w, es)
    ensures NeverHandsOver(w, es) ==> Run(w, es).held.surplus == 0
    decreases |es|
  {
    if es != [] {
      StepAddsSurplusExactlyWhen(w, es[0]);
      if !HandsOverAt(w, es[0]) {
        SurplusExactlyWhenHandedOver(Step(w, es[0]), es[1..]);
      } else {
        assert !NeverSurplus(Step(w, es[0]), es[1..]);
      }
    }
  }

  /** Every decoded pump group shows the latest timestamp the device has. */
  predicate AlwaysShows(es: seq<Event>) {
    forall e :: e in es && e.Snapshot? && e.pumpDecoded ==> e.shows
  }

  /** The awaited run is the only one since the last timestamp shown: true while nothing is withheld. */
  ghost predicate AwaitsTheNext(t: Track) {
    t.pending > 0 ==> t.pending == 1 && t.lastEdge == WindowStart(t) && (t.seen == 0 ==> t.lastEdge == 0)
  }

  lemma ShowingKeepsAwaiting(w: World, e: Event)
    requires Inv(w) && AwaitsTheNext(w.held) && e.Snapshot? && (e.pumpDecoded ==> e.shows)
    ensures AwaitsTheNext(SeenBy(w, e))
    ensures e.pumpDecoded ==> !HandsOver(w.held, |w.device.stamps|)
  {
  }

  lemma {:induction false} ShowingNeverHandsOver(w: World, es: seq<Event>)
    requires Inv(w) && Possible(w, es) && AlwaysShows(es)
    requires AwaitsTheNext(w.held) && AwaitsTheNext(w.stored)
    ensures NeverHandsOver(w, es)
    decreases |es|
  {
    if es != [] {
      StepKeepsInv(w, es[0]);
      if es[0].Snapshot? {
        ShowingKeepsAwaiting(w, es[0]);
      }
      ShowingNeverHandsOver(Step(w, es[0]), es[1..]);
    }
  }

  /** A device that withholds nothing, as the reducer takes every device to be, never gets there. */
  lemma DevicesThatShowNeverHandOver(d: Device, es: seq<Event>)
    requires Plausible(d) && Possible(FirstStart(d), es) && AlwaysShows(es)
    ensures NeverHandsOver(FirstStart(d), es)
  {
    ShowingNeverHandsOver(FirstStart(d), es);
  }

  /** The count never exceeds the runs begun since the first decoded snapshot, whatever else the device withholds. */
  lemma NeverCountsARunTwice(d: Device, es: seq<Event>)
    requires Plausible(d) && Possible(FirstStart(d), es)
    requires AlwaysShows(es) || NeverHandsOver(FirstStart(d), es)
    ensures var w := Run(FirstStart(d), es);
            w.memory.record.Some? ==>
              && w.memory.record.value.backup.activationCount <= w.device.begun - w.held.base
              && (w.held.first.Some? ==> w.memory.record.value.backup.activationCount <= w.device.begun - w.held.first.value)
  {
    if AlwaysShows(es) {
      DevicesThatShowNeverHandOver(d, es);
    }
    SurplusExactlyWhenHandedOver(FirstStart(d), es);
    RunKeepsInv(FirstStart(d), es);
  }

  /** The count is exact if and only if every timestamp was seen in time and no run is outstanding. */
  lemma ExactWhenNothingIsMissed(d: Device, es: seq<Event>)
    requires Plausible(d) && Possible(FirstStart(d), es) && NeverHandsOver(FirstStart(d), es)
    requires Run(FirstStart(d), es).memory.record.Some?
    ensures var w := Run(FirstStart(d), es);
            w.memory.record.value.backup.activationCount == w.device.begun - w.held.base <==>
              w.held.missed == 0 && w.held.seen + w.held.pending == w.device.begun
  {
    SurplusExactlyWhenHandedOver(FirstStart(d), es);
    RunKeepsInv(FirstStart(d), es);
  }

  /** Every snapshot that shows a timestamp shows at most one the record has not accounted for. */
  ghost predicate Prompt(w: World, es: seq<Event>)
    decreases |es|
  {
    es != [] ==>
      && (es[0].Snapshot? && es[0].pumpDecoded && es[0].shows && (w.held.seen > 0 || w.held.pending > 0) ==>
            |w.device.stamps| <= w.held.seen + 1)
      && Prompt(Step(w, es[0]), es[1..])
  }

  lemma {:induction false} PromptRunsMissNothing(w: World, es: seq<Event>)
    requires Inv(w) && Possible(w, es) && Prompt(w, es) && NeverHandsOver(w, es)
    requires w.held.missed == 0 && w.stored.missed == 0
    ensures Run(w, es).held.missed == 0 && Run(w, es).stored.missed == 0
    decreases |es|
  {
    if es != [] {
      StepKeepsInv(w, es[0]);
      PromptRunsMissNothing(Step(w, es[0]), es[1..]);
    }
  }

  /** When every timestamp is observed before the next is published, the count equals the runs accounted for. */
  lemma PromptCountsAreExact(d: Device, es: seq<Event>)
    requires Plausible(d) && Possible(FirstStart(d), es) && Prompt(FirstStart(d), es) && NeverHandsOver(FirstStart(d), es)
    ensures var w := Run(FirstStart(d), es);
            w.memory.record.Some? ==>
              w.memory.record.value.backup.activationCount == w.held.seen - w.held.base + w.held.pending
  {
    RunKeepsInv(FirstStart(d), es);
    PromptRunsMissNothing(FirstStart(d), es);
    SurplusExactlyWhenHandedOver(FirstStart(d), es);
  }

  lemma RunOfMore(w: World, e: Event, rest: seq<Event>)
    requires Enabled(w, e) && Possible(Step(w, e), rest)
    ensures Possible(w, [e] + rest) && Run(w, [e] + rest) == Run(Step(w, e), rest)
  {
    assert ([e] + rest)[1..] == rest;
  }

  /** A run given by the worlds it goes through. */
  lemma {:induction false} RunThrough(ws: seq<World>, es: seq<Event>)
    requires |ws| == |es| + 1
    requires forall k :: 0 <= k < |es| ==> Enabled(ws[k], es[k]) && ws[k + 1] == Step(ws[k], es[k])
    ensures Possible(ws[0], es) && Run(ws[0], es) == ws[|es|]
    decreases |es|
  {
    if es != [] {
      RunThrough(ws[1..], es[1..]);
      RunOfMore(ws[0], es[0], es[1..]);
      assert es == [es[0]] + es[1..];
    }
  }

  /** A run watched to start while the device withholds the timestamp of the run before it. */
  lemma WatchedWhileWithheld(idle: Device, running: Device, hidden: Event) returns (w1: World, w3: World)
    requires idle == Device(false, 1, [100]) && running == Device(true, 2, [100])
    requires hidden == Snapshot(true, false, 0, false, None, None, false)
    ensures w1 == Step(FirstStart(idle), hidden) && w1.device == idle && w3 == Step(w1.(device := running), hidden)
    ensures w3.held == Track(Some(1), 0, 0, 0, 1, 1, 0) && w3.memory.record.Some?
    ensures w3.memory.record.value.backup.activationCount == 1
    ensures w3.memory.record.value.watermarks == Watermarks(None, None, true)
  {
    w1 := Step(FirstStart(idle), hidden);
    w3 := Step(w1.(device := running), hidden);
  }

  /** The withheld timestamp is taken for the watched run, and the run's own is then counted again. */
  lemma TakenThenCounted(w4: World, stopped: Device, stamped: Device, shown: Event) returns (w5: World, w7: World)
    requires stopped == Device(false, 2, [100]) && stamped == Device(false, 2, [100, 200])
    requires shown == Snapshot(true, true, 0, false, None, None, false)
    requires w4.device == stopped && w4.held == Track(Some(1), 0, 0, 0, 1, 1, 0) && w4.memory.record.Some?
    requires w4.memory.record.value.backup.activationCount == 1
    requires w4.memory.record.value.watermarks == Watermarks(None, None, true)
    ensures w5 == Step(w4, shown) && w5.device == stopped && w7 == Step(w5.(device := stamped), shown)
    ensures w7.held.first == Some(1) && w7.held.surplus == 1 && w7.device == stamped && w7.memory.record.Some?
    ensures w7.memory.record.value.backup.activationCount == 2
  {
    w5 := Step(w4, shown);
    assert w5.memory.record.value.watermarks == Watermarks(Some(100), None, false) && w5.held == Track(Some(1), 1, 1, 0, 0, 1, 1);
    w7 := Step(w5.(device := stamped), shown);
  }

  /**
   * The promise is needed. A device that withholds a timestamp it already had, and
   * shows it only after a watched run, gets that one run counted twice: the record
   * takes the older timestamp as the run's own.
   */
  lemma AnOlderFirstTimestampCountsTwice() returns (d: Device, es: seq<Event>)
    ensures Plausible(d) && Possible(FirstStart(d), es)
    ensures var w := Run(FirstStart(d), es);
            && w.memory.record.Some? && w.memory.record.value.backup.activationCount == 2
            && w.held.first == Some(d.begun) && w.device.begun == d.begun + 1
            && w.held.surplus == 1
  {
    d := Device(false, 1, [100]);
    var hidden := Snapshot(true, false, 0, false, None, None, false);
    var shown := hidden.(shows := true);
    var running, stopped, stamped := Device(true, 2, [100]), Device(false, 2, [100]), Device(false, 2, [100, 200]);
    es := [hidden, RunStarts, hidden, RunStops, shown, Publishes(200), shown];
    var w1, w3 := WatchedWhileWithheld(d, running, hidden);
    var w4 := w3.(device := stopped);
    var w5, w7 := TakenThenCounted(w4, stopped, stamped, shown);
    RunThrough([FirstStart(d), w1, w1.(device := running), w3, w4, w5, w5.(device := stamped), w7], es);
  }
}
