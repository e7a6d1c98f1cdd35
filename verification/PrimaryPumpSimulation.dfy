/**
 * The pump record against a physical primary pump (`src/accessories/pumpRecords.ts`).
 *
 * The primary pump publishes no timestamp: all the reducer has is a sampled running
 * flag. Under any sampling, undecoded snapshots, failed writes and restarts a run is
 * counted at most once, and the ones not counted are exactly those that were not
 * watched to start.
 */
module PrimaryPumpSimulation {
  import opened Wrappers
  import opened PumpRecords

  /** `begun` counts every run that ever started. */
  datatype Pump = Pump(running: bool, begun: nat)

  /**
   * What one record lineage has seen of the pump: how many runs had begun at its first
   * and at its latest decoded snapshot, and how many of those between it did not count.
   */
  datatype Track = Track(first: Option<nat>, upTo: nat, unseen: nat)

  const Fresh := Track(None, 0, 0)

  datatype World = World(pump: Pump, memory: Memory, held: Track, stored: Track)

  /** A snapshot's other facts are arbitrary; its pump group decodes or does not. */
  datatype Event =
    | RunStarts
    | RunStops
    | Snapshot(decoded: bool, rest: Observation, writeFails: bool)
    | Restarts

  predicate Enabled(w: World, e: Event) {
    match e
    case RunStarts => !w.pump.running
    case RunStops => w.pump.running
    case Snapshot(_, _, _) => true
    case Restarts => true
  }

  function ObservationOf(p: Pump, e: Event): Observation
    requires e.Snapshot?
  {
    e.rest.(primaryRunning := if e.decoded then Some(p.running) else None)
  }

  /** The runs begun since the latest snapshot, less the one this snapshot watched start. */
  function Seen(t: Track, previous: Option<bool>, p: Pump): Track {
    if t.first.None? then Track(Some(p.begun), p.begun, 0)
    else
      var counted := if previous == Some(false) && p.running then 1 else 0;
      Track(t.first, p.begun, t.unseen + if p.begun >= t.upTo + counted then p.begun - t.upTo - counted else 0)
  }

  function Step(w: World, e: Event): World {
    match e
    case RunStarts => w.(pump := Pump(true, w.pump.begun + 1))
    case RunStops => w.(pump := w.pump.(running := false))
    case Snapshot(decoded, _, writeFails) =>
      var memory := Observed(w.memory, ObservationOf(w.pump, e), writeFails);
      var held := if decoded then Seen(w.held, w.memory.previousPrimaryRunning, w.pump) else w.held;
      World(w.pump, memory, held, if memory.pendingPersist then w.stored else held)
    case Restarts =>
      var memory := Restarted(w.memory);
      var lineage := if memory.record.Some? then w.stored else Fresh;
      World(w.pump, memory, lineage, lineage)
  }

  ghost predicate Accounts(r: Option<Record>, t: Track, p: Pump) {
    match r
    case None => t == Fresh
    case Some(record) =>
      if t.first.None? then t == Fresh && record.primary.activationCount == 0
      else t.first.value <= t.upTo <= p.begun && record.primary.activationCount + t.unseen == t.upTo - t.first.value
  }

  /** What the reducer remembers of the pump is of this lineage, and a run it saw idle behind has stopped. */
  ghost predicate MemoryIsCurrent(w: World) {
    && (w.memory.previousPrimaryRunning.Some? ==> w.held.first.Some?)
    && (w.memory.previousPrimaryRunning == Some(false) && w.held.upTo == w.pump.begun ==> !w.pump.running)
  }

  ghost predicate Inv(w: World) {
    && Accounts(w.memory.record, w.held, w.pump)
    && Accounts(w.memory.persisted, w.stored, w.pump)
    && MemoryIsCurrent(w)
    && InSync(w.memory)
    && (!w.memory.pendingPersist && w.memory.record.Some? ==> w.held == w.stored)
  }

  lemma PrimaryMovesAlone(m: Memory, o: Observation)
    ensures var start := if m.record.None? then Seeded(o.receivedAt) else m.record.value;
            NextRecord(m, o).primary == AfterPrimaryEdge(start, m.previousPrimaryRunning, o).primary
  {
  }

  lemma SnapshotKeepsInv(w: World, e: Event)
    requires Inv(w) && e.Snapshot?
    ensures Inv(Step(w, e))
  {
    PrimaryMovesAlone(w.memory, ObservationOf(w.pump, e));
  }

  lemma StepKeepsInv(w: World, e: Event)
    requires Inv(w) && Enabled(w, e)
    ensures Inv(Step(w, e))
  {
    match e
    case RunStarts =>
    case RunStops =>
    case Snapshot(_, _, _) => SnapshotKeepsInv(w, e);
    case Restarts =>
      if w.memory.persisted.Some? {
        RestartRoundTrip(w.memory);
      }
  }

  ghost predicate Possible(w: World, es: seq<Event>)
    decreases |es|
  {
    es == [] || (Enabled(w, es[0]) && Possible(Step(w, es[0]), es[1..]))
  }

  function Run(w: World, es: seq<Event>): World
    decreases |es|
  {
    if es == [] then w else Run(Step(w, es[0]), es[1..])
  }

  lemma {:induction false} RunKeepsInv(w: World, es: seq<Event>)
    requires Inv(w) && Possible(w, es)
    ensures Inv(Run(w, es))
    decreases |es|
  {
    if es != [] {
      StepKeepsInv(w, es[0]);
      RunKeepsInv(Step(w, es[0]), es[1..]);
    }
  }

  /** A pump with any history, and an accessory with no stored record. */
  function FirstStart(p: Pump): World {
    World(p, Unstarted, Fresh, Fresh)
  }

  /**
   * After any run of pump events, snapshots, failed writes and restarts: activations
   * counted, plus runs not watched to start, are the runs begun between the first and
   * the latest decoded snapshot. So no run is ever counted twice.
   */
  lemma PrimaryCountConservation(p: Pump, es: seq<Event>)
    requires Possible(FirstStart(p), es)
    ensures var w := Run(FirstStart(p), es);
            w.memory.record.Some? ==>
              var count := w.memory.record.value.primary.activationCount;
              if w.held.first.None? then count == 0
              else
                && count + w.held.unseen == w.held.upTo - w.held.first.value
                && w.held.upTo <= w.pump.begun
                && count <= w.pump.begun - w.held.first.value
  {
    RunKeepsInv(FirstStart(p), es);
  }

  /** No run begins that the next decoded snapshot of the same process does not watch start. */
  ghost predicate Watches(w: World, es: seq<Event>)
    decreases |es|
  {
    es != [] ==>
      && (es[0].Snapshot? && es[0].decoded && w.held.first.Some? && w.pump.begun != w.held.upTo ==>
            w.pump.begun == w.held.upTo + 1 && w.pump.running && w.memory.previousPrimaryRunning == Some(false))
      && Watches(Step(w, es[0]), es[1..])
  }

  lemma {:induction false} WatchedRunsAreAllSeen(w: World, es: seq<Event>)
    requires Inv(w) && Possible(w, es) && Watches(w, es) && w.held.unseen == 0 && w.stored.unseen == 0
    ensures Run(w, es).held.unseen == 0
    decreases |es|
  {
    if es != [] {
      StepKeepsInv(w, es[0]);
      WatchedRunsAreAllSeen(Step(w, es[0]), es[1..]);
    }
  }

  /** When every run is watched to start, the count is exactly the runs begun up to the latest decoded snapshot. */
  lemma WatchedCountsAreExact(p: Pump, es: seq<Event>)
    requires Possible(FirstStart(p), es) && Watches(FirstStart(p), es)
    ensures var w := Run(FirstStart(p), es);
            w.memory.record.Some? && w.held.first.Some? ==>
              w.memory.record.value.primary.activationCount == w.held.upTo - w.held.first.value
  {
    RunKeepsInv(FirstStart(p), es);
    WatchedRunsAreAllSeen(FirstStart(p), es);
  }
}
