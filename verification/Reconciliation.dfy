/**
 * The absence counts behind accessory removal (`src/accessories/reconciliation.ts`).
 */
module Reconciliation {
  const CONFIRMATION_THRESHOLD := 2

  type Counts = map<string, nat>

  /** What one trustworthy inventory does to the counts. */
  function Counted(counts: Counts, present: set<string>): Counts {
    map d | d in counts.Keys + present :: if d in present then 0 else counts[d] + 1
  }

  /** The tracked devices an inventory confirms absent. */
  function Confirmed(counts: Counts, present: set<string>): set<string> {
    set d | d in counts && d !in present && counts[d] + 1 >= CONFIRMATION_THRESHOLD
  }

  class AbsenceTracker {
    var absenceCounts: Counts

    constructor ()
      ensures absenceCounts == map[]
    {
      absenceCounts := map[];
    }

    method Observe(deviceIds: seq<string>) returns (confirmedAbsent: set<string>)
      modifies this
      ensures absenceCounts == Counted(old(absenceCounts), set d | d in deviceIds)
      ensures confirmedAbsent == Confirmed(old(absenceCounts), set d | d in deviceIds)
    {
      var present := set d | d in deviceIds;
      confirmedAbsent := {};
      var listed := present;
      while listed != {}
        invariant listed <= present
        invariant absenceCounts.Keys == old(absenceCounts).Keys + (present - listed)
        invariant forall d :: d in absenceCounts ==> absenceCounts[d] == if d in present - listed then 0 else old(absenceCounts)[d]
        decreases listed
      {
        var d :| d in listed;
        absenceCounts := absenceCounts[d := 0];
        listed := listed - {d};
      }
      var todo := absenceCounts.Keys;
      while todo != {}
        invariant todo <= absenceCounts.Keys == old(absenceCounts).Keys + present
        invariant forall d :: d in absenceCounts ==>
                    absenceCounts[d] == if d in present then 0 else old(absenceCounts)[d] + (if d in todo then 0 else 1)
        invariant confirmedAbsent == Confirmed(old(absenceCounts), present) - todo
        decreases todo
      {
        var d :| d in todo;
        todo := todo - {d};
        if d !in present {
          var absenceCount := absenceCounts[d] + 1;
          absenceCounts := absenceCounts[d := absenceCount];
          if absenceCount >= CONFIRMATION_THRESHOLD {
            confirmedAbsent := confirmedAbsent + {d};
          }
        }
      }
    }

    method Present(deviceId: string)
      modifies this
      ensures absenceCounts == old(absenceCounts)[deviceId := 0]
    {
      absenceCounts := absenceCounts[deviceId := 0];
    }

    method Forget(deviceId: string)
      modifies this
      ensures absenceCounts == old(absenceCounts) - {deviceId}
    {
      absenceCounts := absenceCounts - {deviceId};
    }
  }

  // ---- What a confirmation says about history ----

  datatype Event = Inventory(present: set<string>) | Seen(deviceId: string) | Forgotten(deviceId: string)

  function Step(counts: Counts, event: Event): Counts {
    match event
    case Inventory(present) => Counted(counts, present)
    case Seen(deviceId) => counts[deviceId := 0]
    case Forgotten(deviceId) => counts - {deviceId}
  }

  function Run(events: seq<Event>): Counts {
    if events == [] then map[] else Step(Run(events[..|events| - 1]), events[|events| - 1])
  }

  predicate Omits(event: Event, d: string) {
    event.Inventory? && d !in event.present
  }

  predicate Shows(event: Event, d: string) {
    (event.Inventory? && d in event.present) || event == Seen(d)
  }

  /** How many inventories after event `j` omit the device. */
  function Omissions(events: seq<Event>, d: string, j: nat): nat
    decreases |events|
  {
    if |events| <= j + 1 then 0
    else Omissions(events[..|events| - 1], d, j) + (if Omits(events[|events| - 1], d) then 1 else 0)
  }

  /** Since `j` showed the device, nothing has forgotten it or shown it again. */
  ghost predicate LastShown(events: seq<Event>, d: string, j: nat) {
    && j < |events|
    && Shows(events[j], d)
    && forall k :: j < k < |events| ==> !Shows(events[k], d) && events[k] != Forgotten(d)
  }

  /** A tracked count is exactly the number of inventories that omitted the device since it was last shown. */
  lemma {:induction false} CountsAreHistory(events: seq<Event>, d: string) returns (j: nat)
    requires d in Run(events)
    ensures LastShown(events, d, j) && Run(events)[d] == Omissions(events, d, j)
  {
    var n := |events| - 1;
    if Shows(events[n], d) {
      j := n;
    } else {
      j := CountsAreHistory(events[..n], d);
    }
  }

  /** The inventory at `k` is the latest one before the end. */
  ghost predicate LatestInventory(events: seq<Event>, k: nat) {
    k < |events| && events[k].Inventory? && forall i :: k < i < |events| ==> !events[i].Inventory?
  }

  lemma {:induction false} LatestOmission(events: seq<Event>, d: string, j: nat) returns (k: nat)
    requires LastShown(events, d, j) && Omissions(events, d, j) >= 1
    ensures j < k && LatestInventory(events, k) && Omits(events[k], d)
    decreases |events|
  {
    var n := |events| - 1;
    if events[n].Inventory? {
      k := n;
    } else {
      k := LatestOmission(events[..n], d, j);
    }
  }

  lemma {:induction false} OmissionsAreCounted(events: seq<Event>, d: string, j: nat, k: nat)
    requires j < k < |events| && Omits(events[k], d)
    ensures Omissions(events, d, j) >= 1
    decreases |events|
  {
    if k < |events| - 1 {
      OmissionsAreCounted(events[..|events| - 1], d, j, k);
    }
  }

  /**
   * A device is confirmed absent only when it was shown before, and the two
   * latest trustworthy inventories both omit it, with nothing vouching for it in between.
   */
  lemma ConfirmedMeansTwiceOmitted(events: seq<Event>, present: set<string>, d: string) returns (shown: nat, omitted: nat)
    requires d in Confirmed(Run(events), present)
    ensures d !in present
    ensures LastShown(events, d, shown) && shown < omitted
    ensures LatestInventory(events, omitted) && Omits(events[omitted], d)
  {
    shown := CountsAreHistory(events, d);
    omitted := LatestOmission(events, d, shown);
  }

  /** And it is confirmed whenever that is so: the count misses no omission. */
  lemma TwiceOmittedIsConfirmed(events: seq<Event>, present: set<string>, d: string, shown: nat, omitted: nat)
    requires d !in present
    requires LastShown(events, d, shown) && shown < omitted < |events| && Omits(events[omitted], d)
    ensures d in Confirmed(Run(events), present)
  {
    TrackedSince(events, d, shown);
    var j := CountsAreHistory(events, d);
    assert j == shown;
    OmissionsAreCounted(events, d, shown, omitted);
  }

  lemma {:induction false} TrackedSince(events: seq<Event>, d: string, shown: nat)
    requires LastShown(events, d, shown)
    ensures d in Run(events)
    decreases |events|
  {
    if shown < |events| - 1 {
      TrackedSince(events[..|events| - 1], d, shown);
    }
  }
}
