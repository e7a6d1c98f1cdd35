/**
 * The pump activation record of one accessory (`src/accessories/pumpRecords.ts`).
 *
 * A reducer fuses a sampled running flag with the device's own backup-pump
 * timestamp, which the device publishes only after a run has stopped. The
 * functions below say what one observation does to a record; the class is the
 * reducer itself, which edits the stored record in place and is proved against
 * them.
 */
module PumpRecords {
  import opened Wrappers

  const MILLISECONDS_PER_SECOND := 1000
  const MAX_DATE_MILLISECONDS := 8_640_000_000_000_000
  const MAX_SAFE_INTEGER := 9_007_199_254_740_991

  /** What was observed about one pump; `testActivity` is absent until the label is earned. */
  datatype PumpObservation = PumpObservation(
    observationStartedAt: int,
    activationCount: int,
    lastActivationAt: Option<int>,
    testActivity: Option<bool>)

  /** Device timestamps already accounted for, in the device's own seconds. */
  datatype Watermarks = Watermarks(
    backupPumpTimestamp: Option<int>,
    testTimestamp: Option<int>,
    awaitingTimestamp: bool)

  datatype Record = Record(primary: PumpObservation, backup: PumpObservation, watermarks: Watermarks)

  /** One decoded snapshot, every fact of which may have failed to decode. */
  datatype Observation = Observation(
    receivedAt: int,
    primaryRunning: Option<bool>,
    backupRunning: Option<bool>,
    backupActivatedAt: Option<int>,
    testRunning: Option<bool>,
    testedAt: Option<int>)

  datatype DeviceTimes = DeviceTimes(backupActivatedAt: Option<int>, testedAt: Option<int>)

  // ---- Resuming a stored record ----

  /** One member of the accessory context, which is whatever JSON was on disk. */
  datatype Stored<T> = Absent | Malformed | Present(value: T)

  datatype Context = Context(
    primaryPump: Stored<PumpObservation>,
    backupPump: Stored<PumpObservation>,
    watermarks: Stored<Watermarks>)

  predicate IsDateMilliseconds(value: int) {
    -MAX_DATE_MILLISECONDS <= value <= MAX_DATE_MILLISECONDS
  }

  predicate IsPumpObservation(pump: PumpObservation) {
    && IsDateMilliseconds(pump.observationStartedAt)
    && 0 <= pump.activationCount <= MAX_SAFE_INTEGER
    && (pump.lastActivationAt.Some? ==> IsDateMilliseconds(pump.lastActivationAt.value))
  }

  predicate IsDeviceSecondsOrAbsent(value: Option<int>) {
    value.Some? ==> IsDateMilliseconds(value.value * MILLISECONDS_PER_SECOND)
  }

  predicate IsWatermarks(watermarks: Watermarks) {
    && IsDeviceSecondsOrAbsent(watermarks.backupPumpTimestamp)
    && IsDeviceSecondsOrAbsent(watermarks.testTimestamp)
  }

  /** A record a later process will accept: every member inside the range its check allows. */
  predicate Resumable(r: Record) {
    IsPumpObservation(r.primary) && IsPumpObservation(r.backup) && IsWatermarks(r.watermarks)
  }

  /** The stored record, whole or not at all. */
  function Resume(c: Context): (r: Option<Record>) {
    if c.primaryPump.Present? && c.backupPump.Present? && c.watermarks.Present? then
      var stored := Record(c.primaryPump.value, c.backupPump.value, c.watermarks.value);
      if Resumable(stored) then Some(stored) else None
    else
      None
  }

  /** What persisting a record leaves on disk for the next process to read. */
  function Serialized(r: Option<Record>): Context {
    match r
    case None => Context(Absent, Absent, Absent)
    case Some(record) => Context(Present(record.primary), Present(record.backup), Present(record.watermarks))
  }

  // ---- What one observation does ----

  predicate WatchedAnActivation(previous: Option<bool>, reported: Option<bool>) {
    previous == Some(false) && reported == Some(true)
  }

  function Remembered(previous: Option<bool>, reported: Option<bool>): Option<bool> {
    if reported.Some? then reported else previous
  }

  predicate EvidencesAMissedActivation(watermark: Option<int>, reportedAt: Option<int>) {
    reportedAt.Some? && (watermark.None? || reportedAt.value > watermark.value)
  }

  function Seeded(receivedAt: int): Record {
    var pump := PumpObservation(receivedAt, 0, None, None);
    Record(pump, pump, Watermarks(None, None, false))
  }

  function CountWatched(pump: PumpObservation, receivedAt: int): PumpObservation {
    pump.(activationCount := pump.activationCount + 1, lastActivationAt := Some(receivedAt))
  }

  /** The backup timestamp is reconciled: seeded, absorbed for an awaiting run, or counted as a missed run. */
  function AfterTimestamp(r: Record, reportedAt: Option<int>): Record {
    if !EvidencesAMissedActivation(r.watermarks.backupPumpTimestamp, reportedAt) then
      r
    else
      var moved := r.watermarks.(backupPumpTimestamp := reportedAt);
      if r.watermarks.backupPumpTimestamp.None? || r.watermarks.awaitingTimestamp then
        r.(watermarks := moved.(awaitingTimestamp := false))
      else
        Record(r.primary,
               PumpObservation(r.backup.observationStartedAt, r.backup.activationCount + 1,
                               Some(reportedAt.value * MILLISECONDS_PER_SECOND), None),
               moved)
  }

  function AfterPrimaryEdge(r: Record, previous: Option<bool>, o: Observation): Record {
    if WatchedAnActivation(previous, o.primaryRunning) then r.(primary := CountWatched(r.primary, o.receivedAt)) else r
  }

  function AfterBackupEdge(r: Record, previous: Option<bool>, o: Observation): Record {
    if WatchedAnActivation(previous, o.backupRunning) then
      Record(r.primary,
             CountWatched(r.backup, o.receivedAt).(testActivity := None),
             r.watermarks.(awaitingTimestamp := true))
    else
      r
  }

  /** The self-test label both settled device values support, or nothing when the rule does not run. */
  function ClassifiedAsTestActivity(o: Observation, previous: DeviceTimes): Option<bool> {
    if o.testRunning != Some(false) || o.backupActivatedAt.None? || o.testedAt.None? then
      None
    else if previous != DeviceTimes(o.backupActivatedAt, o.testedAt) then
      None
    else
      Some(o.testedAt.value >= o.backupActivatedAt.value)
  }

  function AfterClassification(r: Record, o: Observation, previous: DeviceTimes): Record {
    if r.watermarks.awaitingTimestamp || r.backup.lastActivationAt.None? then
      r
    else
      var classified := ClassifiedAsTestActivity(o, previous);
      if classified.None? then
        r
      else
        r.(backup := r.backup.(testActivity := classified), watermarks := r.watermarks.(testTimestamp := o.testedAt))
  }

  /** Everything the reducer holds, and what its store last wrote to disk. */
  datatype Memory = MemoryOf(
    record: Option<Record>,
    previousPrimaryRunning: Option<bool>,
    previousBackupRunning: Option<bool>,
    previousDeviceTimes: DeviceTimes,
    pendingPersist: bool,
    persisted: Option<Record>)

  /** The record one observation leaves, from the record and the previous facts it found. */
  function NextRecord(m: Memory, o: Observation): Record {
    var start := if m.record.None? then Seeded(o.receivedAt) else m.record.value;
    var counted := AfterTimestamp(AfterPrimaryEdge(start, m.previousPrimaryRunning, o), o.backupActivatedAt);
    AfterClassification(AfterBackupEdge(counted, m.previousBackupRunning, o), o, m.previousDeviceTimes)
  }

  function Observed(m: Memory, o: Observation, writeFails: bool): Memory {
    var next := NextRecord(m, o);
    var owed := m.pendingPersist || m.record != Some(next);
    MemoryOf(Some(next),
           Remembered(m.previousPrimaryRunning, o.primaryRunning),
           Remembered(m.previousBackupRunning, o.backupRunning),
           DeviceTimes(o.backupActivatedAt, o.testedAt),
           owed && writeFails,
           if owed && !writeFails then Some(next) else m.persisted)
  }

  /** A fresh process over the persisted context: nothing is remembered but the stored record. */
  function Restarted(m: Memory): Memory {
    var resumed := Resume(Serialized(m.persisted));
    MemoryOf(resumed, None, None, DeviceTimes(None, None), false, resumed)
  }

  // ---- What every written record satisfies ----

  /** No label stands while an edge awaits its timestamp, and a label needs both device times. */
  ghost predicate LabelDiscipline(r: Record) {
    && (r.watermarks.awaitingTimestamp ==> r.backup.testActivity.None?)
    && (r.watermarks.backupPumpTimestamp.None? && !r.watermarks.awaitingTimestamp ==> r.backup.lastActivationAt.None?)
    && (r.backup.lastActivationAt.None? ==> r.backup.testActivity.None?)
    && (r.backup.testActivity.Some? ==> r.watermarks.backupPumpTimestamp.Some? && r.watermarks.testTimestamp.Some?)
  }

  ghost predicate LabelIsComparison(r: Record) {
    r.backup.testActivity.Some? && r.watermarks.backupPumpTimestamp.Some? && r.watermarks.testTimestamp.Some? ==>
      r.backup.testActivity.value == (r.watermarks.testTimestamp.value >= r.watermarks.backupPumpTimestamp.value)
  }

  /** The device clock did not step back behind the timestamp already accounted for. */
  predicate NotBehind(r: Option<Record>, o: Observation) {
    r.Some? && r.value.watermarks.backupPumpTimestamp.Some? && o.backupActivatedAt.Some? ==>
      o.backupActivatedAt.value >= r.value.watermarks.backupPumpTimestamp.value
  }

  lemma LabelDisciplineKept(m: Memory, o: Observation)
    requires m.record.Some? ==> LabelDiscipline(m.record.value)
    ensures LabelDiscipline(NextRecord(m, o))
  {
    var start := if m.record.None? then Seeded(o.receivedAt) else m.record.value;
    var counted := AfterTimestamp(AfterPrimaryEdge(start, m.previousPrimaryRunning, o), o.backupActivatedAt);
    assert LabelDiscipline(counted);
    assert LabelDiscipline(AfterBackupEdge(counted, m.previousBackupRunning, o));
  }

  /**
   * A settled pair of device times behind the watermark, of which the test time is the
   * later one: the rule labels the run by the pair, and the record stores the label
   * beside a watermark that lies after both.
   */
  predicate MislabelsBehind(m: Memory, o: Observation) {
    && m.record.Some?
    && !m.record.value.watermarks.awaitingTimestamp
    && !WatchedAnActivation(m.previousBackupRunning, o.backupRunning)
    && m.record.value.backup.lastActivationAt.Some?
    && m.record.value.watermarks.backupPumpTimestamp.Some? && o.backupActivatedAt.Some? && o.testedAt.Some?
    && o.testRunning == Some(false)
    && m.previousDeviceTimes == DeviceTimes(o.backupActivatedAt, o.testedAt)
    && o.backupActivatedAt.value <= o.testedAt.value < m.record.value.watermarks.backupPumpTimestamp.value
  }

  /** From a record whose label is the comparison, an observation breaks it if and only if it mislabels behind the watermark. */
  lemma LabelBreaksExactlyWhen(m: Memory, o: Observation)
    requires m.record.Some? ==> LabelDiscipline(m.record.value) && LabelIsComparison(m.record.value)
    ensures LabelIsComparison(NextRecord(m, o)) <==> !MislabelsBehind(m, o)
  {
    var start := if m.record.None? then Seeded(o.receivedAt) else m.record.value;
    var counted := AfterTimestamp(AfterPrimaryEdge(start, m.previousPrimaryRunning, o), o.backupActivatedAt);
    assert LabelDiscipline(counted) && LabelIsComparison(counted);
    var edged := AfterBackupEdge(counted, m.previousBackupRunning, o);
    assert LabelIsComparison(edged);
    assert NextRecord(m, o) == AfterClassification(edged, o, m.previousDeviceTimes);
  }

  /** A device clock that does not step back never does that. */
  lemma LabelComparisonKept(m: Memory, o: Observation)
    requires m.record.Some? ==> LabelDiscipline(m.record.value) && LabelIsComparison(m.record.value)
    requires NotBehind(m.record, o)
    ensures LabelIsComparison(NextRecord(m, o))
  {
    LabelBreaksExactlyWhen(m, o);
  }

  ghost predicate WatermarkAtMost(a: Option<int>, b: Option<int>) {
    a.Some? ==> b.Some? && a.value <= b.value
  }

  lemma CountsAndWatermarkNeverDecrease(m: Memory, o: Observation)
    requires m.record.Some?
    ensures var r, next := m.record.value, NextRecord(m, o);
            && r.primary.activationCount <= next.primary.activationCount
            && r.backup.activationCount <= next.backup.activationCount <= r.backup.activationCount + 2
            && WatermarkAtMost(r.watermarks.backupPumpTimestamp, next.watermarks.backupPumpTimestamp)
  {
  }

  /** A run of observations, each with the fate of the write it may ask for. */
  function ObservedAll(m: Memory, os: seq<(Observation, bool)>): Memory
    decreases |os|
  {
    if os == [] then m else ObservedAll(Observed(m, os[0].0, os[0].1), os[1..])
  }

  /** No reported timestamp falls behind the one already accounted for, anywhere in the run. */
  ghost predicate NeverBehind(m: Memory, os: seq<(Observation, bool)>)
    decreases |os|
  {
    os == [] || (NotBehind(m.record, os[0].0) && NeverBehind(Observed(m, os[0].0, os[0].1), os[1..]))
  }

  ghost predicate InSync(m: Memory) {
    !m.pendingPersist ==> m.persisted == m.record
  }

  /** Over any run the label is absent while an edge waits, and any debt to the disk is remembered. */
  lemma {:induction false} RecordsStayHonest(m: Memory, os: seq<(Observation, bool)>)
    requires m.record.Some? ==> LabelDiscipline(m.record.value)
    requires InSync(m)
    ensures var last := ObservedAll(m, os);
            && (last.record.Some? ==> LabelDiscipline(last.record.value))
            && InSync(last)
            && (os != [] && !os[|os| - 1].1 ==> last.record.Some? && last.persisted == last.record)
    decreases |os|
  {
    if os != [] {
      LabelDisciplineKept(m, os[0].0);
      RecordsStayHonest(Observed(m, os[0].0, os[0].1), os[1..]);
    }
  }

  /** A write is asked for exactly when the record moved or an earlier one is owed: it stays owed when it fails, and lands the new record otherwise. */
  lemma WritesAreAskedExactlyWhen(m: Memory, o: Observation, writeFails: bool)
    requires InSync(m)
    ensures var t := Observed(m, o, writeFails);
            var asked := m.pendingPersist || t.record != m.record;
            && (t.pendingPersist <==> asked && writeFails)
            && t.persisted == if asked && !writeFails then t.record else m.persisted
  {
  }

  ghost predicate NeverMislabels(m: Memory, os: seq<(Observation, bool)>)
    decreases |os|
  {
    os == [] || (!MislabelsBehind(m, os[0].0) && NeverMislabels(Observed(m, os[0].0, os[0].1), os[1..]))
  }

  ghost predicate AlwaysComparison(m: Memory, os: seq<(Observation, bool)>)
    decreases |os|
  {
    && (m.record.Some? ==> LabelIsComparison(m.record.value))
    && (os == [] || AlwaysComparison(Observed(m, os[0].0, os[0].1), os[1..]))
  }

  /** Over every run a present label is the comparison throughout if and only if no observation mislabels behind the watermark. */
  lemma {:induction false} LabelsAreComparisonsExactlyWhen(m: Memory, os: seq<(Observation, bool)>)
    requires m.record.Some? ==> LabelDiscipline(m.record.value) && LabelIsComparison(m.record.value)
    ensures AlwaysComparison(m, os) <==> NeverMislabels(m, os)
    ensures NeverMislabels(m, os) && ObservedAll(m, os).record.Some? ==> LabelIsComparison(ObservedAll(m, os).record.value)
    decreases |os|
  {
    if os != [] {
      LabelDisciplineKept(m, os[0].0);
      LabelBreaksExactlyWhen(m, os[0].0);
      if !MislabelsBehind(m, os[0].0) {
        LabelsAreComparisonsExactlyWhen(Observed(m, os[0].0, os[0].1), os[1..]);
      }
    }
  }

  /** With device timestamps that never step back, a present label is the comparison of the two stored times. */
  lemma {:induction false} LabelsStayComparisons(m: Memory, os: seq<(Observation, bool)>)
    requires m.record.Some? ==> LabelDiscipline(m.record.value) && LabelIsComparison(m.record.value)
    requires NeverBehind(m, os)
    ensures ObservedAll(m, os).record.Some? ==> LabelIsComparison(ObservedAll(m, os).record.value)
    decreases |os|
  {
    if os != [] {
      LabelDisciplineKept(m, os[0].0);
      LabelComparisonKept(m, os[0].0);
      LabelsStayComparisons(Observed(m, os[0].0, os[0].1), os[1..]);
    }
  }

  /** A reducer with no stored record, in a process that has observed nothing. */
  const Unstarted := MemoryOf(None, None, None, DeviceTimes(None, None), false, None)

  /** A device clock that steps back does get there, from the very first observation on. */
  lemma SteppingBackBreaksTheLabel() returns (os: seq<(Observation, bool)>)
    ensures !NeverBehind(Unstarted, os)
    ensures var r := ObservedAll(Unstarted, os).record; r.Some? && !LabelIsComparison(r.value)
  {
    var idle := Observation(0, Some(false), Some(false), None, None, None);
    var running := idle.(backupRunning := Some(true));
    var stamped := idle.(backupActivatedAt := Some(100));
    var behind := idle.(backupActivatedAt := Some(50), testRunning := Some(false), testedAt := Some(60));
    os := [(idle, false), (running, false), (stamped, false), (behind, false), (behind, false)];
    var m1 := Observed(Unstarted, idle, false);
    var m2 := Observed(m1, running, false);
    var m3 := Observed(m2, stamped, false);
    var m4 := Observed(m3, behind, false);
    assert m3.record.value.watermarks == Watermarks(Some(100), None, false);
    LabelBreaksExactlyWhen(m4, behind);
    ObservingOneByOne(m4, behind, []);
    ObservingOneByOne(m3, behind, os[4..]);
    ObservingOneByOne(m2, stamped, os[3..]);
    ObservingOneByOne(m1, running, os[2..]);
    ObservingOneByOne(Unstarted, idle, os[1..]);
    assert os[4..] == [(behind, false)] + [] && os[3..] == [(behind, false)] + os[4..] && os[2..] == [(stamped, false)] + os[3..];
    assert os[1..] == [(running, false)] + os[2..] && os == [(idle, false)] + os[1..];
  }

  lemma ObservingOneByOne(m: Memory, o: Observation, rest: seq<(Observation, bool)>)
    ensures ObservedAll(m, [(o, false)] + rest) == ObservedAll(Observed(m, o, false), rest)
    ensures NeverBehind(m, [(o, false)] + rest) <==> NotBehind(m.record, o) && NeverBehind(Observed(m, o, false), rest)
  {
    assert ([(o, false)] + rest)[1..] == rest;
  }

  // ---- What the primary count counts ----

  /** The latest decoded flag before observation `n` said idle; `previous` is what the process remembered at first. */
  ghost predicate IdleBefore(previous: Option<bool>, os: seq<(Observation, bool)>, n: nat)
    requires n <= |os|
  {
    || (previous == Some(false) && forall k :: 0 <= k < n ==> os[k].0.primaryRunning.None?)
    || (exists j :: 0 <= j < n && os[j].0.primaryRunning == Some(false) && forall k :: j < k < n ==> os[k].0.primaryRunning.None?)
  }

  /** Observation `i` watched the primary pump start: it reports it running, and the latest flag before it said idle. */
  ghost predicate WatchesAStart(previous: Option<bool>, os: seq<(Observation, bool)>, i: nat)
    requires i < |os|
  {
    os[i].0.primaryRunning == Some(true) && IdleBefore(previous, os, i)
  }

  ghost function StartsWatched(previous: Option<bool>, os: seq<(Observation, bool)>): set<nat> {
    set i | 0 <= i < |os| && WatchesAStart(previous, os, i)
  }

  lemma {:induction false} ObservingOneMore(m: Memory, os: seq<(Observation, bool)>, next: (Observation, bool))
    ensures ObservedAll(m, os + [next]) == Observed(ObservedAll(m, os), next.0, next.1)
    decreases |os|
  {
    if os == [] {
      assert os + [next] == [next] && [next][1..] == [];
    } else {
      assert (os + [next])[1..] == os[1..] + [next];
      ObservingOneMore(Observed(m, os[0].0, os[0].1), os[1..], next);
    }
  }

  lemma {:induction false} RemembersTheLatestFlag(m: Memory, os: seq<(Observation, bool)>)
    ensures ObservedAll(m, os).previousPrimaryRunning == Some(false) <==> IdleBefore(m.previousPrimaryRunning, os, |os|)
    decreases |os|
  {
    if os != [] {
      var before, last := os[..|os| - 1], os[|os| - 1];
      assert os == before + [last];
      ObservingOneMore(m, before, last);
      RemembersTheLatestFlag(m, before);
      assert last.0.primaryRunning.None? ==> (IdleBefore(m.previousPrimaryRunning, os, |os|) <==> IdleBefore(m.previousPrimaryRunning, before, |before|));
    }
  }

  lemma StartsOneMore(previous: Option<bool>, before: seq<(Observation, bool)>, last: (Observation, bool))
    ensures var os, more := before + [last], last.0.primaryRunning == Some(true) && IdleBefore(previous, before, |before|);
            StartsWatched(previous, os) == StartsWatched(previous, before) + if more then {|before|} else {}
  {
    var os := before + [last];
    forall i: nat | i < |os|
      ensures WatchesAStart(previous, os, i) <==>
                if i < |before| then WatchesAStart(previous, before, i) else last.0.primaryRunning == Some(true) && IdleBefore(previous, before, |before|)
    {
      assert os[..i] == before[..i];
      IdleBeforeOfPrefix(previous, before, [last], i);
    }
  }

  lemma IdleBeforeOfPrefix(previous: Option<bool>, before: seq<(Observation, bool)>, rest: seq<(Observation, bool)>, n: nat)
    requires n <= |before|
    ensures IdleBefore(previous, before + rest, n) <==> IdleBefore(previous, before, n)
  {
    var os := before + rest;
    if j :| 0 <= j < n && before[j].0.primaryRunning == Some(false) && forall k :: j < k < n ==> before[k].0.primaryRunning.None? {
      assert os[j] == before[j];
    }
    if j :| 0 <= j < n && os[j].0.primaryRunning == Some(false) && forall k :: j < k < n ==> os[k].0.primaryRunning.None? {
      assert forall k :: j < k < n ==> os[k] == before[k];
    }
    assert forall k :: 0 <= k < n ==> os[k] == before[k];
  }

  function PrimaryCount(m: Memory): int {
    if m.record.None? then 0 else m.record.value.primary.activationCount
  }

  function PrimaryActivatedAt(m: Memory): Option<int> {
    if m.record.None? then None else m.record.value.primary.lastActivationAt
  }

  lemma OnePrimaryStep(m: Memory, o: Observation, writeFails: bool)
    ensures var t, watched := Observed(m, o, writeFails), o.primaryRunning == Some(true) && m.previousPrimaryRunning == Some(false);
            && PrimaryCount(t) == PrimaryCount(m) + (if watched then 1 else 0)
            && PrimaryActivatedAt(t) == if watched then Some(o.receivedAt) else PrimaryActivatedAt(m)
  {
  }

  /** What the last observation of a run adds to what the primary count has counted. */
  lemma PrimaryGrows(m: Memory, before: seq<(Observation, bool)>, last: (Observation, bool))
    ensures var start, t := last.0.primaryRunning == Some(true) && IdleBefore(m.previousPrimaryRunning, before, |before|), ObservedAll(m, before + [last]);
            && PrimaryCount(t) == PrimaryCount(ObservedAll(m, before)) + (if start then 1 else 0)
            && PrimaryActivatedAt(t) == if start then Some(last.0.receivedAt) else PrimaryActivatedAt(ObservedAll(m, before))
  {
    ObservingOneMore(m, before, last);
    RemembersTheLatestFlag(m, before);
    OnePrimaryStep(ObservedAll(m, before), last.0, last.1);
  }

  /**
   * Over every run of observations the primary count grows by exactly the number of
   * starts watched, each a flag that says running behind one that said idle with only
   * undecoded ones between them. A restart remembers no flag, so it starts such a run
   * anew.
   */
  lemma {:induction false} PrimaryCountIsStartsWatched(m: Memory, os: seq<(Observation, bool)>)
    ensures PrimaryCount(ObservedAll(m, os)) == PrimaryCount(m) + |StartsWatched(m.previousPrimaryRunning, os)|
    decreases |os|
  {
    if os == [] {
      assert StartsWatched(m.previousPrimaryRunning, os) == {};
    } else {
      var before, last := os[..|os| - 1], os[|os| - 1];
      assert os == before + [last];
      PrimaryCountIsStartsWatched(m, before);
      PrimaryGrows(m, before, last);
      StartsOneMore(m.previousPrimaryRunning, before, last);
      assert |before| !in StartsWatched(m.previousPrimaryRunning, before);
    }
  }

  /** And its last activation is the receipt time of the latest start watched, or the one recorded before the run. */
  lemma {:induction false} PrimaryActivationIsTheLatestStart(m: Memory, os: seq<(Observation, bool)>, i: nat)
    requires i < |os| && WatchesAStart(m.previousPrimaryRunning, os, i)
    requires forall k :: i < k < |os| ==> !WatchesAStart(m.previousPrimaryRunning, os, k)
    ensures PrimaryActivatedAt(ObservedAll(m, os)) == Some(os[i].0.receivedAt)
    decreases |os|
  {
    var before, last := os[..|os| - 1], os[|os| - 1];
    assert os == before + [last];
    PrimaryGrows(m, before, last);
    IdleBeforeOfPrefix(m.previousPrimaryRunning, before, [last], |before|);
    if i < |before| {
      assert !WatchesAStart(m.previousPrimaryRunning, os, |before|);
      forall k: nat | k < |before| ensures WatchesAStart(m.previousPrimaryRunning, before, k) <==> WatchesAStart(m.previousPrimaryRunning, os, k) {
        IdleBeforeOfPrefix(m.previousPrimaryRunning, before, [last], k);
      }
      PrimaryActivationIsTheLatestStart(m, before, i);
    }
  }

  lemma {:induction false} WithoutAStartNothingMoves(m: Memory, os: seq<(Observation, bool)>)
    requires forall k :: 0 <= k < |os| ==> !WatchesAStart(m.previousPrimaryRunning, os, k)
    ensures PrimaryActivatedAt(ObservedAll(m, os)) == PrimaryActivatedAt(m)
    decreases |os|
  {
    if os != [] {
      var before, last := os[..|os| - 1], os[|os| - 1];
      assert os == before + [last];
      PrimaryGrows(m, before, last);
      IdleBeforeOfPrefix(m.previousPrimaryRunning, before, [last], |before|);
      assert !WatchesAStart(m.previousPrimaryRunning, os, |before|);
      forall k: nat | k < |before| ensures WatchesAStart(m.previousPrimaryRunning, before, k) <==> WatchesAStart(m.previousPrimaryRunning, os, k) {
        IdleBeforeOfPrefix(m.previousPrimaryRunning, before, [last], k);
      }
      WithoutAStartNothingMoves(m, before);
    }
  }

  /** A hundred million days to either side of the epoch: what a date can hold, in its milliseconds. */
  predicate IsDate(milliseconds: int) {
    -100_000_000 * 24 * 60 * 60 * 1000 <= milliseconds <= 100_000_000 * 24 * 60 * 60 * 1000
  }

  /** Every time of the record is a date, and every count a number JavaScript counts exactly. */
  predicate InRange(r: Record) {
    && IsDate(r.primary.observationStartedAt) && IsDate(r.backup.observationStartedAt)
    && 0 <= r.primary.activationCount < 0x20_0000_0000_0000 && 0 <= r.backup.activationCount < 0x20_0000_0000_0000
    && (r.primary.lastActivationAt.Some? ==> IsDate(r.primary.lastActivationAt.value))
    && (r.backup.lastActivationAt.Some? ==> IsDate(r.backup.lastActivationAt.value))
    && (r.watermarks.backupPumpTimestamp.Some? ==> IsDate(1000 * r.watermarks.backupPumpTimestamp.value))
    && (r.watermarks.testTimestamp.Some? ==> IsDate(1000 * r.watermarks.testTimestamp.value))
  }

  /** A written record comes back unchanged after a restart exactly when its values are in range, and otherwise not at all. */
  lemma RestartRoundTrip(m: Memory)
    requires m.persisted.Some?
    ensures Restarted(m).record == if InRange(m.persisted.value) then m.persisted else None
    ensures Restarted(m) == MemoryOf(Restarted(m).record, None, None, DeviceTimes(None, None), false, Restarted(m).record)
  {
  }

  /** A stored member that is missing or malformed costs the whole record. */
  lemma HalfARecordIsNone(c: Context)
    ensures Resume(c).Some? <==>
              && c.primaryPump.Present? && c.backupPump.Present? && c.watermarks.Present?
              && InRange(Record(c.primaryPump.value, c.backupPump.value, c.watermarks.value))
  {
  }

  /** What one observation brings is in range: its receipt time, and the device's own timestamps. */
  predicate BringsDates(o: Observation) {
    && IsDate(o.receivedAt)
    && (o.backupActivatedAt.Some? ==> IsDate(1000 * o.backupActivatedAt.value))
    && (o.testedAt.Some? ==> IsDate(1000 * o.testedAt.value))
  }

  /** From dates the reducer writes only records the next process will take back, while the counts are far from their limit. */
  lemma RecordsStayInRange(m: Memory, o: Observation)
    requires m.record.Some? ==> InRange(m.record.value)
    requires m.record.Some? ==> m.record.value.primary.activationCount < 0x20_0000_0000_0000 - 2
    requires m.record.Some? ==> m.record.value.backup.activationCount < 0x20_0000_0000_0000 - 2
    requires BringsDates(o)
    ensures InRange(NextRecord(m, o))
  {
    var start := if m.record.None? then Seeded(o.receivedAt) else m.record.value;
    var counted := AfterTimestamp(AfterPrimaryEdge(start, m.previousPrimaryRunning, o), o.backupActivatedAt);
    assert InRange(counted) && counted.backup.activationCount < 0x20_0000_0000_0000 - 1;
    assert InRange(AfterBackupEdge(counted, m.previousBackupRunning, o));
  }

  /** The reducer, over one accessory's stored context. */
  class Reducer {
    var record: Option<Record>
    var previousPrimaryRunning: Option<bool>
    var previousBackupRunning: Option<bool>
    var previousDeviceTimes: DeviceTimes
    var pendingPersist: bool
    // The readable record on disk; the store that writes it is a port that succeeds or throws.
    var persisted: Option<Record>

    function Held(): Memory
      reads this
    {
      MemoryOf(record, previousPrimaryRunning, previousBackupRunning, previousDeviceTimes, pendingPersist, persisted)
    }

    constructor (context: Context)
      ensures record == Resume(context)
      ensures persisted == Resume(context)
      ensures previousPrimaryRunning.None? && previousBackupRunning.None? && !pendingPersist
      ensures InSync(Held())
    {
      record := Resume(context);
      persisted := Resume(context);
      previousPrimaryRunning, previousBackupRunning := None, None;
      previousDeviceTimes := DeviceTimes(None, None);
      pendingPersist := false;
    }

    method Seed(receivedAt: int)
      requires record.None?
      modifies `record
      ensures record == Some(Seeded(receivedAt))
    {
      record := Some(Seeded(receivedAt));
    }

    method ReconcileBackupTimestamp(reportedAt: Option<int>) returns (changed: bool)
      requires record.Some?
      modifies `record
      ensures record == Some(AfterTimestamp(old(record).value, reportedAt))
      ensures changed <==> record != old(record)
    {
      var watermarks := record.value.watermarks;
      if !EvidencesAMissedActivation(watermarks.backupPumpTimestamp, reportedAt) {
        return false;
      }
      var seedingTheFirstWatermark := watermarks.backupPumpTimestamp.None?;
      record := Some(record.value.(watermarks := watermarks.(backupPumpTimestamp := reportedAt)));
      if seedingTheFirstWatermark || watermarks.awaitingTimestamp {
        record := Some(record.value.(watermarks := record.value.watermarks.(awaitingTimestamp := false)));
        return true;
      }
      var backup := record.value.backup;
      backup := backup.(activationCount := backup.activationCount + 1);
      backup := backup.(lastActivationAt := Some(reportedAt.value * MILLISECONDS_PER_SECOND), testActivity := None);
      record := Some(record.value.(backup := backup));
      return true;
    }

    method ReconcileClassification(o: Observation) returns (changed: bool)
      requires record.Some?
      modifies `record
      ensures record == Some(AfterClassification(old(record).value, o, previousDeviceTimes))
      ensures changed <==> record != old(record)
    {
      var stored := record.value;
      if stored.watermarks.awaitingTimestamp || stored.backup.lastActivationAt.None? {
        return false;
      }
      var classified := ClassifiedAsTestActivity(o, previousDeviceTimes);
      if classified.None? {
        return false;
      }
      changed := stored.backup.testActivity != classified || stored.watermarks.testTimestamp != o.testedAt;
      record := Some(stored.(backup := stored.backup.(testActivity := classified),
                             watermarks := stored.watermarks.(testTimestamp := o.testedAt)));
    }

    /**
     * Records one decoded snapshot. When it returns rather than throws, disk and
     * memory hold the same record, whether or not this call wrote anything.
     */
    method Observe(o: Observation, writeFails: bool) returns (threw: bool)
      requires InSync(Held())
      modifies this
      ensures Held() == Observed(old(Held()), o, writeFails)
      ensures InSync(Held())
      ensures !threw ==> persisted == record
      ensures threw ==> pendingPersist && persisted == old(persisted)
    {
      var changed := false;
      if record.None? {
        Seed(o.receivedAt);
        changed := true;
      }
      if WatchedAnActivation(previousPrimaryRunning, o.primaryRunning) {
        record := Some(record.value.(primary := CountWatched(record.value.primary, o.receivedAt)));
        changed := true;
      }
      var reconciled := ReconcileBackupTimestamp(o.backupActivatedAt);
      changed := reconciled || changed;
      if WatchedAnActivation(previousBackupRunning, o.backupRunning) {
        var backup := CountWatched(record.value.backup, o.receivedAt);
        record := Some(Record(record.value.primary, backup.(testActivity := None),
                              record.value.watermarks.(awaitingTimestamp := true)));
        changed := true;
      }
      var classified := ReconcileClassification(o);
      changed := classified || changed;
      if old(record).Some? {
        ChangedMeansDifferent(old(Held()), o);
      }
      previousPrimaryRunning := Remembered(previousPrimaryRunning, o.primaryRunning);
      previousBackupRunning := Remembered(previousBackupRunning, o.backupRunning);
      previousDeviceTimes := DeviceTimes(o.backupActivatedAt, o.testedAt);
      pendingPersist := pendingPersist || changed;
      if pendingPersist {
        if writeFails {
          return true;
        }
        persisted := record;
        pendingPersist := false;
      }
      return false;
    }
  }

  /** No later step of one observation undoes an earlier one, so a step that changed something leaves a different record. */
  lemma ChangedMeansDifferent(m: Memory, o: Observation)
    requires m.record.Some?
    ensures var start := m.record.value;
            var primary := AfterPrimaryEdge(start, m.previousPrimaryRunning, o);
            var counted := AfterTimestamp(primary, o.backupActivatedAt);
            var edged := AfterBackupEdge(counted, m.previousBackupRunning, o);
            primary != start || counted != primary || edged != counted || NextRecord(m, o) != edged ==> NextRecord(m, o) != start
  {
  }
}
