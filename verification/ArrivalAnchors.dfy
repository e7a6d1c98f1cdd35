/**
 * The persisted wall-clock arrival anchors (`src/runtime/arrivalAnchors.ts`).
 *
 * Reads and records answer from memory. Every `persist` call captures the map it
 * sees and chains one file write behind the previous call's, so the renames on
 * the one shared target happen in call order however long or short each write is.
 */
module ArrivalAnchors {
  import opened Wrappers

  type Anchors = map<string, int>

  /** The stored file, before anyone has checked it. */
  datatype AnchorValue = Finite(at: int) | NotFinite
  datatype AnchorFile = Missing | Unreadable | Parsed(entries: map<string, AnchorValue>)

  predicate IsAnchorFile(entries: map<string, AnchorValue>) {
    forall d :: d in entries ==> entries[d].Finite?
  }

  /** Either every stored anchor, or none of them. */
  function Readable(file: AnchorFile): (anchors: Anchors)
    ensures file.Parsed? && (forall d :: d in file.entries ==> file.entries[d].Finite?) ==>
              anchors.Keys == file.entries.Keys && forall d :: d in anchors ==> file.entries[d] == Finite(anchors[d])
    ensures !file.Parsed? || (exists d :: d in file.entries && file.entries[d].NotFinite?) ==> anchors == map[]
  {
    if file.Parsed? && IsAnchorFile(file.entries) then map d | d in file.entries :: file.entries[d].at else map[]
  }

  /** One `persist` call: what it captured, and how far its link of the promise chain has come. */
  datatype Phase = Waiting | Writing | Settled(landed: bool)
  datatype Write = Write(snapshot: Anchors, phase: Phase)

  /** The promise chain: link `i` may begin only once link `i - 1` has settled. */
  predicate MayBegin(writes: seq<Write>, i: nat) {
    i < |writes| && writes[i].phase.Waiting? && (i == 0 || writes[i - 1].phase.Settled?)
  }

  datatype Event =
    | Called(snapshot: Anchors)
    | Begins(link: nat)
    | Renames(link: nat)
    | Fails(link: nat)

  datatype Disk = Disk(file: Option<Anchors>, writes: seq<Write>)

  predicate Enabled(disk: Disk, event: Event) {
    match event
    case Called(_) => true
    case Begins(i) => MayBegin(disk.writes, i)
    case Renames(i) => i < |disk.writes| && disk.writes[i].phase.Writing?
    case Fails(i) => i < |disk.writes| && disk.writes[i].phase.Writing?
  }

  function Step(disk: Disk, event: Event): Disk
    requires Enabled(disk, event)
  {
    match event
    case Called(snapshot) => disk.(writes := disk.writes + [Write(snapshot, Waiting)])
    case Begins(i) => disk.(writes := disk.writes[i := disk.writes[i].(phase := Writing)])
    case Renames(i) => Disk(Some(disk.writes[i].snapshot), disk.writes[i := disk.writes[i].(phase := Settled(true))])
    case Fails(i) => disk.(writes := disk.writes[i := disk.writes[i].(phase := Settled(false))])
  }

  predicate Lands(write: Write) {
    write.phase.Settled? && write.phase.landed
  }

  /** The snapshot of the latest call whose write landed, and what the file held before if none did. */
  function LatestLanded(initial: Option<Anchors>, writes: seq<Write>): Option<Anchors>
    decreases |writes|
  {
    if writes == [] then initial
    else if Lands(writes[|writes| - 1]) then Some(writes[|writes| - 1].snapshot)
    else LatestLanded(initial, writes[..|writes| - 1])
  }

  /** At most one write is under way, everything before it has settled, everything after it waits. */
  ghost predicate Chained(writes: seq<Write>) {
    forall i, j :: 0 <= i < j < |writes| && !writes[j].phase.Waiting? ==> writes[i].phase.Settled?
  }

  ghost predicate Inv(initial: Option<Anchors>, disk: Disk) {
    Chained(disk.writes) && disk.file == LatestLanded(initial, disk.writes)
  }

  lemma {:induction false} UnlandedTailIsSilent(initial: Option<Anchors>, writes: seq<Write>, n: nat)
    requires n <= |writes| && forall i :: n <= i < |writes| ==> !Lands(writes[i])
    ensures LatestLanded(initial, writes) == LatestLanded(initial, writes[..n])
    decreases |writes| - n
  {
    if n == |writes| {
      assert writes[..n] == writes;
    } else {
      var shorter := writes[..|writes| - 1];
      UnlandedTailIsSilent(initial, shorter, n);
      assert shorter[..n] == writes[..n];
    }
  }

  lemma StepKeepsInv(initial: Option<Anchors>, disk: Disk, event: Event)
    requires Inv(initial, disk) && Enabled(disk, event)
    ensures Inv(initial, Step(disk, event))
  {
    var next := Step(disk, event);
    match event {
      case Called(_) =>
        assert next.writes[..|disk.writes|] == disk.writes;
      case Begins(i) =>
        UnlandedTailIsSilent(initial, disk.writes, i);
        UnlandedTailIsSilent(initial, next.writes, i);
        assert disk.writes[..i] == next.writes[..i];
      case Renames(i) =>
        UnlandedTailIsSilent(initial, next.writes, i + 1);
        assert next.writes[..i + 1][i] == next.writes[i];
      case Fails(i) =>
        UnlandedTailIsSilent(initial, disk.writes, i);
        UnlandedTailIsSilent(initial, next.writes, i);
        assert disk.writes[..i] == next.writes[..i];
    }
  }

  ghost predicate Possible(disk: Disk, events: seq<Event>)
    decreases |events|
  {
    events == [] || (Enabled(disk, events[0]) && Possible(Step(disk, events[0]), events[1..]))
  }

  ghost function Run(disk: Disk, events: seq<Event>): Disk
    requires Possible(disk, events)
    decreases |events|
  {
    if events == [] then disk else Run(Step(disk, events[0]), events[1..])
  }

  lemma {:induction false} RunKeepsInv(initial: Option<Anchors>, disk: Disk, events: seq<Event>)
    requires Inv(initial, disk) && Possible(disk, events)
    ensures Inv(initial, Run(disk, events))
    decreases |events|
  {
    if events != [] {
      StepKeepsInv(initial, disk, events[0]);
      RunKeepsInv(initial, Step(disk, events[0]), events[1..]);
    }
  }

  /**
   * Writes linearize in call order. However calls overlap and whichever writes
   * fail, the file holds the snapshot of the latest call whose write landed, and
   * a write under way means every earlier call has settled and no later one began.
   */
  lemma WritesLinearize(initial: Option<Anchors>, events: seq<Event>)
    requires Possible(Disk(initial, []), events)
    ensures var disk := Run(Disk(initial, []), events);
            && disk.file == LatestLanded(initial, disk.writes)
            && Chained(disk.writes)
  {
    RunKeepsInv(initial, Disk(initial, []), events);
  }

  /** What the calls of a run captured, in the order they were made. */
  function Captured(events: seq<Event>): seq<Anchors> {
    if events == [] then [] else (if events[0].Called? then [events[0].snapshot] else []) + Captured(events[1..])
  }

  function Snapshots(writes: seq<Write>): seq<Anchors> {
    seq(|writes|, i requires 0 <= i < |writes| => writes[i].snapshot)
  }

  /** A call adds its write behind the others; any other step settles the write it names as it says and leaves the rest. */
  lemma StepMovesOneWrite(disk: Disk, event: Event)
    requires Enabled(disk, event)
    ensures var next := Step(disk, event);
            if event.Called? then
              next == Disk(disk.file, disk.writes + [Write(event.snapshot, Waiting)])
            else
              && event.link < |disk.writes| && |next.writes| == |disk.writes|
              && (forall i :: 0 <= i < |disk.writes| && i != event.link ==> next.writes[i] == disk.writes[i])
              && next.writes[event.link].snapshot == disk.writes[event.link].snapshot
              && next.writes[event.link].phase == (if event.Begins? then Writing else Settled(event.Renames?))
              && next.file == if event.Renames? then Some(disk.writes[event.link].snapshot) else disk.file
  {
  }

  /** No call is lost: the writes are the calls, in call order, each with the snapshot it captured. */
  lemma {:induction false} EveryCallIsWritten(disk: Disk, events: seq<Event>)
    requires Possible(disk, events)
    ensures Snapshots(Run(disk, events).writes) == Snapshots(disk.writes) + Captured(events)
    decreases |events|
  {
    if events != [] {
      StepMovesOneWrite(disk, events[0]);
      EveryCallIsWritten(Step(disk, events[0]), events[1..]);
      assert Snapshots(Step(disk, events[0]).writes) == Snapshots(disk.writes) + if events[0].Called? then [events[0].snapshot] else [];
    }
  }

  /** And none waits for ever: while any write is unsettled, the first of them can begin, or is under way and can land or fail. */
  lemma {:induction false} TheChainCanMove(disk: Disk, i: nat)
    requires Chained(disk.writes) && i < |disk.writes| && !disk.writes[i].phase.Settled?
    ensures forall snapshot :: Enabled(disk, Called(snapshot))
    ensures exists k: nat :: k <= i && (Enabled(disk, Begins(k)) || (Enabled(disk, Renames(k)) && Enabled(disk, Fails(k))))
    decreases i
  {
    if disk.writes[i].phase.Writing? {
      assert Enabled(disk, Renames(i)) && Enabled(disk, Fails(i));
    } else if i == 0 || disk.writes[i - 1].phase.Settled? {
      assert Enabled(disk, Begins(i));
    } else {
      TheChainCanMove(disk, i - 1);
    }
  }

  /** A landing write is later than every write that landed before it: the file never goes back. */
  lemma FileNeverReverts(initial: Option<Anchors>, disk: Disk, i: nat)
    requires Inv(initial, disk) && Enabled(disk, Renames(i))
    ensures forall j :: 0 <= j < |disk.writes| && Lands(disk.writes[j]) ==> j < i
  {
  }

  /** The store: the map in memory, the file, and the chain of writes between them. */
  class AnchorStore {
    var anchors: Anchors
    var file: Option<Anchors>
    var writes: seq<Write>

    function OnDisk(): Disk
      reads this
    {
      Disk(file, writes)
    }

    function Get(deviceId: string): Option<int>
      reads this
    {
      if deviceId in anchors then Some(anchors[deviceId]) else None
    }

    constructor (held: Option<Anchors>)
      ensures anchors == map[] && file == held && writes == []
    {
      anchors, file, writes := map[], held, [];
    }

    method Record(deviceId: string, at: int)
      modifies `anchors
      ensures anchors == old(anchors)[deviceId := at]
    {
      anchors := anchors[deviceId := at];
    }

    method Forget(deviceId: string)
      modifies `anchors
      ensures anchors == old(anchors) - {deviceId}
    {
      anchors := anchors - {deviceId};
    }

    /** A restore adds the whole stored map, or leaves memory exactly as it was. */
    method Restore(stored: AnchorFile)
      modifies `anchors
      ensures anchors == old(anchors) + Readable(stored)
      ensures anchors == old(anchors) || (stored.Parsed? && stored.entries.Keys <= anchors.Keys)
    {
      if stored.Parsed? && IsAnchorFile(stored.entries) {
        anchors := anchors + (map d | d in stored.entries :: stored.entries[d].at);
      }
    }

    /** The call captures the map held now; nothing recorded later can reach its write. */
    method Persist()
      modifies `writes
      ensures OnDisk() == Step(old(OnDisk()), Called(anchors))
    {
      writes := writes + [Write(anchors, Waiting)];
    }

    method BeginWrite(link: nat)
      requires Enabled(OnDisk(), Begins(link))
      modifies `writes
      ensures OnDisk() == Step(old(OnDisk()), Begins(link))
    {
      writes := writes[link := writes[link].(phase := Writing)];
    }

    method SettleWrite(link: nat, renamed: bool)
      requires Enabled(OnDisk(), Renames(link))
      modifies `writes, `file
      ensures OnDisk() == Step(old(OnDisk()), if renamed then Renames(link) else Fails(link))
    {
      if renamed {
        file := Some(writes[link].snapshot);
      }
      writes := writes[link := writes[link].(phase := Settled(renamed))];
    }
  }
}
