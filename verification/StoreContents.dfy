/**
 * Where every value of a stored snapshot comes from (`src/device/state.ts`): over any
 * mix of polls, patches, releases and removals, each field is the one its latest
 * writer brought.
 */
module StoreContents {
  import opened Wrappers
  import opened Telemetry
  import opened DeviceState

  /** One thing that happens to one device. */
  datatype Event =
    | Poll(body: ApiDevice, now: int)
    | Deliver(patch: Patch, now: int)
    | Release(reason: Reason)
    | Remove

  function Step(e: Entry, event: Event): Entry {
    match event
    case Poll(body, now) => Discovered(e, body, now)
    case Deliver(patch, now) => Patched(e, patch, now)
    case Release(reason) => Released(e, reason)
    case Remove => Unknown
  }

  function Run(events: seq<Event>): Entry {
    if events == [] then Unknown else Step(Run(events[..|events| - 1]), events[|events| - 1])
  }

  /** The patch at `k` was accepted by the store as the events before it had left it. */
  ghost predicate AcceptedAt(events: seq<Event>, k: int) {
    0 <= k < |events| && events[k].Deliver? && Accepts(Run(events[..k]), events[k].patch)
  }

  /** The poll at `k` met telemetry the shadow did not own, and put its own body in its place. */
  ghost predicate ReplacesAt(events: seq<Event>, k: int) {
    0 <= k < |events| && events[k].Poll? && !Owned(Run(events[..k]))
  }

  ghost predicate WritesReading(events: seq<Event>, k: int, key: string, value: Value) {
    || (ReplacesAt(events, k) && key in events[k].body.data && events[k].body.data[key] == value)
    || (AcceptedAt(events, k) && events[k].patch.data.Some? && key in events[k].patch.data.value && events[k].patch.data.value[key] == value)
  }

  /** After `k` something wrote this reading again, or took the whole telemetry away. */
  ghost predicate LosesReading(events: seq<Event>, k: int, key: string) {
    || ReplacesAt(events, k)
    || (0 <= k < |events| && events[k].Remove?)
    || (AcceptedAt(events, k) && events[k].patch.data.Some? && key in events[k].patch.data.value)
  }

  ghost predicate WroteReadingLast(events: seq<Event>, k: int, key: string, value: Value) {
    WritesReading(events, k, key, value) && forall j :: k < j < |events| ==> !LosesReading(events, j, key)
  }

  ghost predicate WritesState(events: seq<Event>, k: int, key: string) {
    AcceptedAt(events, k) && events[k].patch.state.Some? && key in events[k].patch.state.value
  }

  ghost predicate WroteStateLast(events: seq<Event>, k: int, key: string, value: Value) {
    && WritesState(events, k, key) && events[k].patch.state.value[key] == value
    && forall j :: k < j < |events| ==> !WritesState(events, j, key) && !events[j].Remove?
  }

  ghost predicate PolledLast(events: seq<Event>, k: int) {
    && 0 <= k < |events| && events[k].Poll?
    && forall j :: k < j < |events| ==> !events[j].Poll? && !events[j].Remove?
  }

  /** A poll, or an accepted patch that carries a reading or a state, even an empty one. */
  ghost predicate ObservesAt(events: seq<Event>, k: int) {
    && 0 <= k < |events|
    && (events[k].Poll? || (AcceptedAt(events, k) && (events[k].patch.state.Some? || (events[k].patch.data.Some? && events[k].patch.data.value != map[]))))
  }

  ghost predicate ObservedLast(events: seq<Event>, k: int) {
    ObservesAt(events, k) && forall j :: k < j < |events| ==> !ObservesAt(events, j)
  }

  lemma PrefixesAgree(events: seq<Event>, e: Event, k: int)
    requires 0 <= k < |events|
    ensures AcceptedAt(events + [e], k) <==> AcceptedAt(events, k)
    ensures ReplacesAt(events + [e], k) <==> ReplacesAt(events, k)
    ensures ObservesAt(events + [e], k) <==> ObservesAt(events, k)
  {
    assert (events + [e])[..k] == events[..k];
  }

  lemma LastOne(events: seq<Event>, e: Event)
    ensures Run(events + [e]) == Step(Run(events), e)
    ensures AcceptedAt(events + [e], |events|) <==> e.Deliver? && Accepts(Run(events), e.patch)
    ensures ReplacesAt(events + [e], |events|) <==> e.Poll? && !Owned(Run(events))
  {
    assert (events + [e])[..|events|] == events;
  }

  /** A device is known exactly while it was polled since its last removal, and says what the latest poll said of it. */
  lemma {:induction false} IdentityIsTheLatestPolls(events: seq<Event>)
    ensures Run(events).snapshot.Some? <==> exists k :: PolledLast(events, k)
    ensures forall k :: PolledLast(events, k) ==>
              var snapshot, body := Run(events).snapshot, events[k].body;
              && snapshot.Some? && snapshot.value.identity == body.identity
              && snapshot.value.connected == body.connected && snapshot.value.deviceTimestamp == body.timestamp
    decreases |events|
  {
    if events != [] {
      var before, e := events[..|events| - 1], events[|events| - 1];
      assert events == before + [e];
      IdentityIsTheLatestPolls(before);
      LastOne(before, e);
      forall k | 0 <= k < |before| ensures PolledLast(events, k) <==> PolledLast(before, k) && !e.Poll? && !e.Remove? {
      }
      assert PolledLast(events, |before|) <==> e.Poll?;
    }
  }

  /** A known device was last observed when the latest poll or observing patch arrived. */
  lemma {:induction false} ReceiptIsTheLatestObservation(events: seq<Event>, k: int)
    requires ObservedLast(events, k) && Run(events).snapshot.Some?
    ensures Run(events).snapshot.value.receivedAt == events[k].now
    decreases |events|
  {
    var before, e := events[..|events| - 1], events[|events| - 1];
    assert events == before + [e];
    LastOne(before, e);
    if k < |before| {
      assert !ObservesAt(events, |before|);
      forall j | 0 <= j < |before| ensures ObservesAt(events, j) <==> ObservesAt(before, j) {
        PrefixesAgree(before, e, j);
      }
      ReceiptIsTheLatestObservation(before, k);
    }
  }

  /** Every reading is the one its latest writer brought, an accepted patch or a poll of telemetry the shadow did not own, and none is lost. */
  lemma {:induction false} ReadingsAreTheLatestWritten(events: seq<Event>, key: string, value: Value)
    ensures (Run(events).snapshot.Some? && key in Run(events).snapshot.value.data && Run(events).snapshot.value.data[key] == value) <==>
              exists k :: WroteReadingLast(events, k, key, value)
    decreases |events|
  {
    if events != [] {
      var before, e := events[..|events| - 1], events[|events| - 1];
      assert events == before + [e];
      ReadingsAreTheLatestWritten(before, key, value);
      LastOne(before, e);
      var n := |before|;
      forall k | 0 <= k < n
        ensures WroteReadingLast(events, k, key, value) <==> WroteReadingLast(before, k, key, value) && !LosesReading(events, n, key)
      {
        EarlierWriters(before, e, k, key, value);
      }
      assert WroteReadingLast(events, n, key, value) <==> WritesReading(events, n, key, value);
      OneMoreReading(before, e, key, value);
      if k :| WroteReadingLast(before, k, key, value) {
        assert !LosesReading(events, n, key) ==> WroteReadingLast(events, k, key, value);
      }
    }
  }

  lemma EarlierWriters(before: seq<Event>, e: Event, k: int, key: string, value: Value)
    requires 0 <= k < |before|
    ensures WroteReadingLast(before + [e], k, key, value) <==>
              WroteReadingLast(before, k, key, value) && !LosesReading(before + [e], |before|, key)
  {
    var events := before + [e];
    forall j | 0 <= j < |before|
      ensures LosesReading(events, j, key) <==> LosesReading(before, j, key)
      ensures WritesReading(events, j, key, value) <==> WritesReading(before, j, key, value)
    {
      PrefixesAgree(before, e, j);
    }
  }

  predicate Reads(e: Entry, key: string, value: Value) {
    e.snapshot.Some? && key in e.snapshot.value.data && e.snapshot.value.data[key] == value
  }

  lemma OneMoreReading(before: seq<Event>, e: Event, key: string, value: Value)
    ensures Reads(Run(before + [e]), key, value) <==>
              || WritesReading(before + [e], |before|, key, value)
              || (Reads(Run(before), key, value) && !LosesReading(before + [e], |before|, key))
  {
    LastOne(before, e);
  }

  /** And every metadata value is the one the latest accepted patch that named it brought. */
  lemma {:induction false} MetadataIsTheLatestWritten(events: seq<Event>, key: string, value: Value)
    ensures (Run(events).snapshot.Some? && key in Run(events).snapshot.value.metadata && Run(events).snapshot.value.metadata[key] == value) <==>
              exists k :: WroteStateLast(events, k, key, value)
    decreases |events|
  {
    if events != [] {
      var before, e := events[..|events| - 1], events[|events| - 1];
      assert events == before + [e];
      MetadataIsTheLatestWritten(before, key, value);
      LastOne(before, e);
      var n := |before|;
      forall k | 0 <= k < n
        ensures WritesState(events, k, key) <==> WritesState(before, k, key)
      {
        PrefixesAgree(before, e, k);
      }
      forall k | 0 <= k < n
        ensures WroteStateLast(events, k, key, value) <==> WroteStateLast(before, k, key, value) && !WritesState(events, n, key) && !e.Remove?
      {
      }
      if k :| WroteStateLast(before, k, key, value) {
        assert !WritesState(events, n, key) && !e.Remove? ==> WroteStateLast(events, k, key, value);
      }
      assert WritesState(events, n, key) && e.patch.state.value[key] == value ==> WroteStateLast(events, n, key, value);
    }
  }
}
