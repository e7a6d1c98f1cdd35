/**
 * What the store's version rules guarantee over whole runs: accepted telemetry
 * moves forward only, ownership comes back only to newer telemetry, and the order
 * of delivery of a set of documents does not matter.
 */
module StoreOrdering {
  import opened Wrappers
  import opened Telemetry
  import opened DeviceState

  /** One thing that happens to one device between the store's disconnects and removals. */
  datatype Event = Poll(body: ApiDevice, now: int) | Deliver(patch: Patch, at: int) | GoSilent

  function Step(e: Entry, event: Event): Entry {
    match event
    case Poll(body, now) => Discovered(e, body, now)
    case Deliver(patch, at) => Patched(e, patch, at)
    case GoSilent => Released(e, Silence)
  }

  function Run(e: Entry, events: seq<Event>): Entry
    decreases |events|
  {
    if events == [] then e else Run(Step(e, events[0]), events[1..])
  }

  /** The versions of the versioned telemetry patches a run accepts, in order. */
  function AcceptedVersions(e: Entry, events: seq<Event>): seq<int>
    decreases |events|
  {
    if events == [] then
      []
    else
      var rest := AcceptedVersions(Step(e, events[0]), events[1..]);
      match events[0]
      case Deliver(patch, _) =>
        if Accepts(e, patch) && HasTelemetryReading(patch) && patch.version.Some? then [patch.version.value] + rest else rest
      case _ => rest
  }

  ghost predicate StrictlyIncreasing(versions: seq<int>) {
    forall i, j :: 0 <= i < j < |versions| ==> versions[i] < versions[j]
  }

  /** Every telemetry version at or below `floor` will be refused. */
  ghost predicate Guards(e: Entry, floor: int) {
    && e.snapshot.Some?
    && ((e.snapshot.value.shadowVersion.Some? && e.snapshot.value.shadowVersion.value >= floor)
        || (e.snapshot.value.shadowVersion.None? && e.fence.Fenced? && e.fence.version.Some? && e.fence.version.value >= floor))
  }

  lemma StepKeepsSound(e: Entry, event: Event)
    requires Sound(e)
    ensures Sound(Step(e, event))
  {
  }

  lemma StepKeepsGuard(e: Entry, event: Event, floor: int)
    requires Sound(e) && Guards(e, floor)
    ensures Guards(Step(e, event), floor)
  {
    assert event.Deliver? && Accepts(e, event.patch) && event.patch.version.Some? ==> event.patch.version.value > floor;
  }

  lemma AcceptanceGuards(e: Entry, patch: Patch, at: int)
    requires Sound(e) && Accepts(e, patch) && HasTelemetryReading(patch) && patch.version.Some?
    ensures Guards(Patched(e, patch, at), patch.version.value)
  {
  }

  lemma {:induction false} GuardedRunsStayAbove(e: Entry, events: seq<Event>, floor: int)
    requires Sound(e) && Guards(e, floor)
    ensures forall i :: 0 <= i < |AcceptedVersions(e, events)| ==> AcceptedVersions(e, events)[i] > floor
    decreases |events|
  {
    if events != [] {
      StepKeepsSound(e, events[0]);
      StepKeepsGuard(e, events[0], floor);
      GuardedRunsStayAbove(Step(e, events[0]), events[1..], floor);
    }
  }

  /**
   * Between disconnects and removals the accepted telemetry versions strictly
   * increase, whatever polls, silences, versionless and metadata-only patches
   * come in between, and a fence never stands beside an ownership watermark.
   */
  lemma {:induction false} AcceptedVersionsIncrease(e: Entry, events: seq<Event>)
    requires Sound(e)
    ensures StrictlyIncreasing(AcceptedVersions(e, events))
    ensures Sound(Run(e, events))
    decreases |events|
  {
    if events != [] {
      var next := Step(e, events[0]);
      StepKeepsSound(e, events[0]);
      AcceptedVersionsIncrease(next, events[1..]);
      if events[0].Deliver? {
        var patch := events[0].patch;
        if Accepts(e, patch) && HasTelemetryReading(patch) && patch.version.Some? {
          AcceptanceGuards(e, patch, events[0].at);
          GuardedRunsStayAbove(next, events[1..], patch.version.value);
        }
      }
    }
  }

  /** The highest version a fenced device refuses, which only other deliveries can raise. */
  ghost predicate FencedAt(e: Entry, version: Option<int>) {
    && Sound(e) && e.fence.Fenced?
    && (version.Some? ==> e.fence.version.Some? && e.fence.version.value >= version.value)
  }

  /** After a silence the shadow owns telemetry again exactly from the first newer versioned reading on. */
  lemma OwnershipReturnsOnlyToNewerTelemetry(e: Entry, event: Event)
    requires Sound(e) && e.fence.Fenced?
    ensures Owned(Step(e, event)) <==>
              && event.Deliver?
              && HasTelemetryReading(event.patch)
              && event.patch.version.Some?
              && (e.fence.version.Some? ==> event.patch.version.value > e.fence.version.value)
    ensures !Owned(Step(e, event)) ==> FencedAt(Step(e, event), e.fence.version)
  {
  }

  predicate Retakes(event: Event, version: Option<int>) {
    && event.Deliver?
    && HasTelemetryReading(event.patch)
    && event.patch.version.Some?
    && (version.Some? ==> event.patch.version.value > version.value)
  }

  /** Over a whole run: a device fenced at a version stays with the poll until telemetry newer than it arrives. */
  lemma {:induction false} SilenceHoldsUntilNewerTelemetry(e: Entry, events: seq<Event>, version: Option<int>)
    requires FencedAt(e, version)
    requires forall i :: 0 <= i < |events| ==> !Retakes(events[i], version)
    ensures FencedAt(Run(e, events), version) && !Owned(Run(e, events))
    decreases |events|
  {
    if events != [] {
      OwnershipReturnsOnlyToNewerTelemetry(e, events[0]);
      assert !Owned(Step(e, events[0]));
      assert forall i :: 0 <= i < |events[1..]| ==> events[1..][i] == events[i + 1];
      SilenceHoldsUntilNewerTelemetry(Step(e, events[0]), events[1..], version);
    }
  }

  /** While a fence holds, every poll writes its own body and no versionless reading gets in. */
  lemma PollsOwnAFencedDevice(e: Entry, body: ApiDevice, now: int, patch: Patch, at: int)
    requires Sound(e) && e.fence.Fenced?
    ensures Discovered(e, body, now).snapshot.value.data == body.data
    ensures patch.version.None? && HasTelemetryReading(patch) ==> Patched(e, patch, at) == e
  {
  }

  // ---- Convergence ----

  /** One versioned shadow document. */
  datatype Document = Document(version: int, data: Fields)

  function PatchOf(document: Document): Patch {
    Patch(Some(document.data), None, Some(document.version))
  }

  function Delivered(e: Entry, documents: seq<Document>, at: int): Entry
    decreases |documents|
  {
    if documents == [] then e else Delivered(Patched(e, PatchOf(documents[0]), at), documents[1..], at)
  }

  /** What a versioned telemetry document has to exceed to be accepted, when anything does. */
  function Watermark(e: Entry): Option<int>
    requires e.snapshot.Some?
  {
    if e.snapshot.value.shadowVersion.Some? then e.snapshot.value.shadowVersion
    else if e.fence.Fenced? then e.fence.version
    else None
  }

  predicate Passes(document: Document, watermark: Option<int>) {
    watermark.None? || document.version > watermark.value
  }

  /** All documents report the same non-empty keys, and one version names one document. */
  ghost predicate Consistent(documents: set<Document>, keys: set<string>) {
    && keys != {}
    && (forall d :: d in documents ==> d.data.Keys == keys)
    && (forall d, other :: d in documents && other in documents && d.version == other.version ==> d == other)
  }

  ghost predicate IsNewest(newest: Document, documents: set<Document>) {
    newest in documents && forall d :: d in documents ==> d.version <= newest.version
  }

  function Elements(documents: seq<Document>): set<Document> {
    set d | d in documents
  }

  lemma DeliveryOfOne(e: Entry, document: Document, at: int)
    requires e.snapshot.Some? && Sound(e) && document.data != map[]
    ensures var next := Patched(e, PatchOf(document), at);
            && next.snapshot.Some? && Sound(next)
            && (if Passes(document, Watermark(e)) then
                  next.snapshot.value.data == e.snapshot.value.data + document.data && Watermark(next) == Some(document.version)
                else
                  next == e)
  {
  }

  lemma {:induction false} LateDocumentsChangeNothing(e: Entry, documents: seq<Document>, at: int)
    requires e.snapshot.Some? && Sound(e)
    requires forall d :: d in documents ==> d.data != map[] && !Passes(d, Watermark(e))
    ensures Delivered(e, documents, at) == e
    decreases |documents|
  {
    if documents != [] {
      assert documents[0] in documents;
      DeliveryOfOne(e, documents[0], at);
      LateDocumentsChangeNothing(e, documents[1..], at);
    }
  }

  /**
   * Delivering versioned documents over the same keys, in any order and with any
   * repetition, ends in the telemetry of the newest of them when it passes the
   * starting watermark, and changes nothing otherwise. Other keys keep their values.
   */
  lemma {:induction false} DeliveryConverges(e: Entry, documents: seq<Document>, newest: Document, keys: set<string>, at: int)
    requires e.snapshot.Some? && Sound(e)
    requires Consistent(Elements(documents), keys) && IsNewest(newest, Elements(documents))
    ensures var last := Delivered(e, documents, at);
            && last.snapshot.Some?
            && (if Passes(newest, Watermark(e)) then
                  last.snapshot.value.data == e.snapshot.value.data + newest.data
                else
                  last == e)
    decreases |documents|
  {
    var first, rest := documents[0], documents[1..];
    assert first in Elements(documents) && newest in documents;
    assert first.data.Keys == keys && newest.data.Keys == keys;
    var next := Patched(e, PatchOf(first), at);
    DeliveryOfOne(e, first, at);
    assert forall d :: d in rest ==> d in Elements(documents);
    if newest in rest {
      assert IsNewest(newest, Elements(rest));
      DeliveryConverges(next, rest, newest, keys, at);
      assert e.snapshot.value.data + first.data + newest.data == e.snapshot.value.data + newest.data;
    } else {
      assert first == newest;
      forall d | d in rest
        ensures d.data != map[] && !Passes(d, Watermark(next))
      {
        assert d in Elements(documents) && d.data.Keys == keys;
      }
      LateDocumentsChangeNothing(next, rest, at);
    }
  }

  lemma SomeElement(documents: seq<Document>)
    ensures documents != [] ==> Elements(documents) != {}
  {
    assert documents != [] ==> documents[0] in Elements(documents);
  }

  lemma NewestExists(documents: set<Document>) returns (newest: Document)
    requires documents != {}
    ensures IsNewest(newest, documents)
    decreases documents
  {
    newest :| newest in documents;
    if documents != {newest} {
      var other := NewestExists(documents - {newest});
      newest := if other.version > newest.version then other else newest;
    }
  }

  /** Two deliveries of the same set of documents, permuted or duplicated, end in the same telemetry. */
  lemma OrderDoesNotMatter(e: Entry, a: seq<Document>, b: seq<Document>, keys: set<string>, at: int)
    requires e.snapshot.Some? && Sound(e)
    requires Elements(a) == Elements(b) && Consistent(Elements(a), keys)
    ensures Delivered(e, a, at).snapshot.Some? && Delivered(e, b, at).snapshot.Some?
    ensures Delivered(e, a, at).snapshot.value.data == Delivered(e, b, at).snapshot.value.data
    ensures forall key :: key in e.snapshot.value.data && key !in keys ==>
              key in Delivered(e, a, at).snapshot.value.data
              && Delivered(e, a, at).snapshot.value.data[key] == e.snapshot.value.data[key]
  {
    SomeElement(a);
    SomeElement(b);
    if a != [] {
      var newest := NewestExists(Elements(a));
      DeliveryConverges(e, a, newest, keys, at);
      DeliveryConverges(e, b, newest, keys, at);
    }
  }
}
