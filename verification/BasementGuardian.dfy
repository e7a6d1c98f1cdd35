/**
 * One accessory (`src/accessories/basementGuardian.ts`): snapshots and trust pushes
 * arrive in any order, and every service has to say what the plugin can vouch for.
 */
module BasementGuardian {
  import opened Wrappers
  import opened Gemini
  import opened Trust
  import opened ServiceCatalogue
  import PumpRecords
  import Telemetry

  datatype Snapshot = Snapshot(data: Payload, metadata: Payload, connected: bool, receivedAt: int)

  datatype Source = Poll | Live

  /**
   * Fixed when the accessory is built: the confirmation threshold, the suppressed
   * notification rows, and the control switches that HomeKit restored as on.
   */
  datatype Settings = Settings(threshold: nat, suppressed: set<Kind>, restoredOn: set<Kind>)

  datatype Accessory = Accessory(
    monitoring: MonitoringTrust,
    device: DeviceDistrust,
    untrusted: Reasons,
    lastTrustedAt: map<Scope, int>,
    offlineCount: nat,
    decoded: Option<DomainState>,
    records: Option<PumpRecords.Record>,
    refreshPending: bool,
    services: Services,
    // What each switch served before the press whose window is still open.
    before: map<Kind, bool>)

  /**
   * The last four are the control binder's: a press leaves as a command, HAP stores
   * the value of a write that was answered, a refusal's clearing push runs (`live` is
   * false for the refusal bound to a restored switch), and a request's window closes.
   *
   * `pending` holds the controls with an unresolved request once the event has
   * reconciled them; `records` is what the reducer holds after observing the snapshot;
   * `failing` names the rows HomeKit throws on and the values that land before it does.
   */
  datatype Event =
    | Update(snapshot: Snapshot, source: Source, records: PumpRecords.Record, pending: set<Kind>)
    | UpdateUnresolved(snapshot: Snapshot, source: Source, pending: set<Kind>, failing: map<Kind, set<Characteristic>>)
    | MarkMonitoring(trust: MonitoringTrust, pending: set<Kind>, failing: map<Kind, set<Characteristic>>)
    | PressSent(kind: Kind)
    | WriteStored(kind: Kind, asked: bool)
    | RefusalClears(kind: Kind, live: bool, pending: set<Kind>)
    | WindowCloses(kind: Kind, pending: set<Kind>)

  /** The scopes a validation withdraws; a metadata violation withdraws none. */
  function ViolatedScopes(violations: seq<Violation>): set<Scope> {
    set v | v in violations && v.scope.Safety? :: v.scope.scope
  }

  function Decoded(snapshot: Snapshot): DomainState {
    DecodeNeverThrows(snapshot.data, snapshot.metadata);
    Decode(snapshot.data, snapshot.metadata).value
  }

  predicate IsControllerLinkLost(state: DomainState) {
    state.fault.Some? && !state.fault.value.controllerLinkPresent
  }

  function ReasonsNow(device: DeviceDistrust, monitoring: MonitoringTrust): Reasons {
    ReasonsOf(device, MonitoringDegradedScopes(monitoring))
  }

  /** Whether this snapshot vouches for the scope; the connectivity scope asks the poll rather than the reasons. */
  predicate Vouches(scope: Scope, device: DeviceDistrust, monitoring: MonitoringTrust, source: Source) {
    if scope.Connectivity? then source.Poll? && Connectivity !in device.violated && !monitoring.credentialsRejected
    else scope !in ReasonsNow(device, monitoring)
  }

  function TrustedAt(
      times: map<Scope, int>, device: DeviceDistrust, monitoring: MonitoringTrust, receivedAt: int, source: Source)
    : map<Scope, int>
  {
    times + map scope | scope in EVERY_SCOPE && Vouches(scope, device, monitoring, source) :: receivedAt
  }

  function InputOf(s: Accessory, settings: Settings, decoded: Option<DomainState>, pending: set<Kind>): Input {
    Input(decoded, s.untrusted, s.offlineCount >= settings.threshold,
          if Fault in s.lastTrustedAt then Some(s.lastTrustedAt[Fault]) else None, pending, s.records)
  }

  /** The trust and offline bookkeeping both kinds of update share. */
  function Observed(s: Accessory, settings: Settings, device: DeviceDistrust, snapshot: Snapshot, source: Source): Accessory {
    s.(device := device,
       untrusted := ReasonsNow(device, s.monitoring),
       lastTrustedAt := TrustedAt(s.lastTrustedAt, device, s.monitoring, snapshot.receivedAt, source),
       offlineCount := if source.Poll? then NextOfflineCount(s.offlineCount, snapshot.connected, settings.threshold) else s.offlineCount)
  }

  function DistrustOf(snapshot: Snapshot): DeviceDistrust {
    DeviceDistrust(ViolatedScopes(Validate(snapshot.data, snapshot.metadata)), IsControllerLinkLost(Decoded(snapshot)))
  }

  const UNRESOLVED := DeviceDistrust(NON_CONNECTIVITY_SCOPES, false)

  function Updated(s: Accessory, settings: Settings, snapshot: Snapshot, source: Source, records: PumpRecords.Record, pending: set<Kind>): Accessory {
    var observed := Observed(s, settings, DistrustOf(snapshot), snapshot, source)
                    .(decoded := Some(Decoded(snapshot)), records := Some(records));
    observed.(services := AllPublished(s.services, InputOf(observed, settings, observed.decoded, pending), settings.suppressed))
  }

  /** Refreshes every published service; the obligation stands until every row was reached. */
  function Refreshed(
      s: Accessory, settings: Settings, decoded: Option<DomainState>, pending: set<Kind>, failing: map<Kind, set<Characteristic>>)
    : Accessory
  {
    s.(refreshPending := exists kind :: kind in failing && kind in s.services,
       services := AllRefreshed(s.services, InputOf(s, settings, decoded, pending), settings.suppressed, failing))
  }

  function Marked(s: Accessory, settings: Settings, trust: MonitoringTrust, pending: set<Kind>, failing: map<Kind, set<Characteristic>>): Accessory {
    if trust == s.monitoring && !s.refreshPending then s
    else
      var told := s.(monitoring := trust, untrusted := ReasonsNow(s.device, trust));
      Refreshed(told, settings, s.decoded, pending, failing)
  }

  /** The value HAP serves for a switch: what was last put there, or what it came up with. */
  function ServedOn(services: Services, settings: Settings, kind: Kind): bool {
    if kind in services && On in services[kind].pushed && services[kind].pushed[On].Truth? then services[kind].pushed[On].truth
    else kind in settings.restoredOn
  }

  /** The control's reported value, as far as its row may publish it; a pending request does not withhold it here. */
  function ReportedControl(s: Accessory, settings: Settings, kind: Kind): Option<bool> {
    match TrustedFact(kind, On, InputOf(s, settings, s.decoded, {}))
    case Some(Truth(on)) => Some(on)
    case _ => None
  }

  /** The republishing of the control rows, which refused credentials hold back. */
  function ControlsRepublished(s: Accessory, settings: Settings, pending: set<Kind>): Services {
    if s.monitoring.credentialsRejected then s.services
    else ControlsRefreshed(s.services, InputOf(s, settings, s.decoded, pending))
  }

  function WithOn(services: Services, kind: Kind, on: bool): Services {
    if kind in services && AlwaysPublishes(kind) then services[kind := services[kind].(pushed := services[kind].pushed[On := Truth(on)])]
    else services
  }

  function OrElse(reported: Option<bool>, otherwise: bool): bool {
    if reported.Some? then reported.value else otherwise
  }

  function Cleared(s: Accessory, settings: Settings, kind: Kind, live: bool, pending: set<Kind>): Accessory {
    var republished := if live then ControlsRepublished(s, settings, pending) else s.services;
    var reported := if live then ReportedControl(s, settings, kind) else None;
    s.(services := WithOn(republished, kind, OrElse(reported, ServedOn(republished, settings, kind))))
  }

  function Expired(s: Accessory, settings: Settings, kind: Kind, pending: set<Kind>): Accessory {
    if kind !in s.before then s
    else
      s.(services := WithOn(ControlsRepublished(s, settings, pending), kind, OrElse(ReportedControl(s, settings, kind), s.before[kind])),
         before := s.before - {kind})
  }

  function Step(s: Accessory, settings: Settings, e: Event): Accessory {
    match e
    case Update(snapshot, source, records, pending) => Updated(s, settings, snapshot, source, records, pending)
    case UpdateUnresolved(snapshot, source, pending, failing) =>
      Refreshed(Observed(s, settings, UNRESOLVED, snapshot, source), settings, None, pending, failing)
    case MarkMonitoring(trust, pending, failing) => Marked(s, settings, trust, pending, failing)
    case PressSent(kind) => s.(before := s.before[kind := ServedOn(s.services, settings, kind)])
    case WriteStored(kind, asked) => s.(services := WithOn(s.services, kind, asked))
    case RefusalClears(kind, live, pending) => Cleared(s, settings, kind, live, pending)
    case WindowCloses(kind, pending) => Expired(s, settings, kind, pending)
  }

  function Run(s: Accessory, settings: Settings, es: seq<Event>): Accessory {
    if es == [] then s else Step(Run(s, settings, es[..|es| - 1]), settings, es[|es| - 1])
  }

  const FIRST_TRUST := MonitoringTrust(false, false, false, false)

  /** A new instance over whatever services Homebridge restored, on which this run has pushed nothing. */
  function Start(restored: set<Kind>): Accessory {
    Accessory(FIRST_TRUST, DeviceDistrust({}, false), map[], map[], 0, None, None, false, map kind | kind in restored :: Fresh, map[])
  }

  // ---- The trust report ----

  /** Every published service reports exactly whether all the scopes it reads can be vouched for. */
  ghost predicate ReportsTrust(s: Accessory) {
    forall kind :: kind in s.services ==> s.services[kind].active == Some(IsFullyTrusted(kind, s.untrusted))
  }

  ghost predicate ReasonsAreCurrent(s: Accessory) {
    s.untrusted == ReasonsNow(s.device, s.monitoring)
  }

  lemma StepKeepsReasonsCurrent(s: Accessory, settings: Settings, e: Event)
    requires ReasonsAreCurrent(s)
    ensures ReasonsAreCurrent(Step(s, settings, e))
  {
  }

  /** A pass in which no row failed leaves every service reporting the trust in force. */
  lemma PassesReportTrust(services: Services, input: Input, suppressed: set<Kind>, failing: map<Kind, set<Characteristic>>)
    ensures var all := AllPublished(services, input, suppressed);
            forall kind :: kind in all ==> all[kind].active == Some(IsFullyTrusted(kind, input.untrusted))
    ensures var all := AllRefreshed(services, input, suppressed, failing);
            forall kind :: kind in all && kind !in failing ==> all[kind].active == Some(IsFullyTrusted(kind, input.untrusted))
  {
  }

  /** Whether this event published on every service: an update of a resolved family always does. */
  predicate Completes(s: Accessory, e: Event) {
    match e
    case Update(_, _, _, _) => true
    case UpdateUnresolved(_, _, _, failing) => !(exists kind :: kind in failing && kind in s.services)
    case MarkMonitoring(trust, _, failing) =>
      (trust != s.monitoring || s.refreshPending) && !(exists kind :: kind in failing && kind in s.services)
    case _ => false
  }

  lemma CompletedPassesReportTrust(s: Accessory, settings: Settings, e: Event)
    requires Completes(s, e)
    ensures ReportsTrust(Step(s, settings, e))
  {
    match e
    case Update(snapshot, source, records, pending) =>
      var observed := Observed(s, settings, DistrustOf(snapshot), snapshot, source)
                      .(decoded := Some(Decoded(snapshot)), records := Some(records));
      PassesReportTrust(s.services, InputOf(observed, settings, observed.decoded, pending), settings.suppressed, map[]);
    case UpdateUnresolved(snapshot, source, pending, failing) =>
      var observed := Observed(s, settings, UNRESOLVED, snapshot, source);
      PassesReportTrust(s.services, InputOf(observed, settings, None, pending), settings.suppressed, failing);
    case MarkMonitoring(trust, pending, failing) =>
      var told := s.(monitoring := trust, untrusted := ReasonsNow(s.device, trust));
      PassesReportTrust(s.services, InputOf(told, settings, s.decoded, pending), settings.suppressed, failing);
  }

  /** Between passes the report stands, unless a refresh is still owed. */
  lemma StepKeepsReport(s: Accessory, settings: Settings, e: Event)
    requires ReportsTrust(s) || s.refreshPending
    ensures ReportsTrust(Step(s, settings, e)) || Step(s, settings, e).refreshPending
  {
    if Completes(s, e) {
      CompletedPassesReportTrust(s, settings, e);
    } else if (e.RefusalClears? || e.WindowCloses?) && !s.refreshPending {
      ControlPushesKeepReport(s, settings, e);
    }
  }

  /** The control binder reports the trust in force, on the rows it refreshes and on the rest. */
  lemma ControlPushesKeepReport(s: Accessory, settings: Settings, e: Event)
    requires ReportsTrust(s) && (e.RefusalClears? || e.WindowCloses?)
    ensures ReportsTrust(Step(s, settings, e))
  {
    var passed := ControlsRepublished(s, settings, e.pending);
    assert forall kind :: kind in passed ==> passed[kind].active == Some(IsFullyTrusted(kind, s.untrusted));
    StepWritesOnAlone(s, settings, e);
  }

  /** Some pass of the run reached every published row. */
  ghost predicate HasCompletedPass(s: Accessory, settings: Settings, es: seq<Event>) {
    es != [] && (Completes(Run(s, settings, es[..|es| - 1]), es[|es| - 1]) || HasCompletedPass(s, settings, es[..|es| - 1]))
  }

  lemma OneStepReports(s: Accessory, settings: Settings, e: Event)
    requires ReasonsAreCurrent(s)
    ensures ReasonsAreCurrent(Step(s, settings, e))
    ensures ReportsTrust(s) || s.refreshPending || Completes(s, e) ==> ReportsTrust(Step(s, settings, e)) || Step(s, settings, e).refreshPending
  {
    StepKeepsReasonsCurrent(s, settings, e);
    if Completes(s, e) {
      CompletedPassesReportTrust(s, settings, e);
    } else if ReportsTrust(s) || s.refreshPending {
      StepKeepsReport(s, settings, e);
    }
  }

  lemma {:induction false} RunKeepsReport(s: Accessory, settings: Settings, es: seq<Event>)
    requires ReasonsAreCurrent(s)
    ensures ReasonsAreCurrent(Run(s, settings, es))
    ensures ReportsTrust(s) || s.refreshPending || HasCompletedPass(s, settings, es) ==>
              ReportsTrust(Run(s, settings, es)) || Run(s, settings, es).refreshPending
    decreases |es|
  {
    if es != [] {
      var before := es[..|es| - 1];
      RunKeepsReport(s, settings, before);
      OneStepReports(Run(s, settings, before), settings, es[|es| - 1]);
    }
  }

  /** What the latest trust push of a run said. */
  function LatestTrust(es: seq<Event>): MonitoringTrust {
    if es == [] then MonitoringTrust(false, false, false, false)
    else if es[|es| - 1].MarkMonitoring? then es[|es| - 1].trust
    else LatestTrust(es[..|es| - 1])
  }

  /** The latest update's own verdict on a scope, said by its fields; an unresolved family vouches for connectivity alone. */
  ghost predicate InDoubt(es: seq<Event>, scope: Scope) {
    if es == [] then false
    else
      var e := es[|es| - 1];
      if e.Update? then !Legible(e.snapshot.data, scope)
      else if e.UpdateUnresolved? then !scope.Connectivity?
      else InDoubt(es[..|es| - 1], scope)
  }

  /** The latest update reported, in a legible fault group, that the controller link is down. */
  ghost predicate LinkIsDown(es: seq<Event>) {
    if es == [] then false
    else
      var e := es[|es| - 1];
      if e.Update? then Legible(e.snapshot.data, Fault) && e.snapshot.data[SerialCommunications] == Telemetry.Flag(false)
      else !e.UpdateUnresolved? && LinkIsDown(es[..|es| - 1])
  }

  lemma UpdatesSayWhatTheFieldsSay(snapshot: Snapshot, scope: Scope)
    ensures scope in DistrustOf(snapshot).violated <==> !Legible(snapshot.data, scope)
    ensures DistrustOf(snapshot).controllerLinkLost <==>
              Legible(snapshot.data, Fault) && snapshot.data[SerialCommunications] == Telemetry.Flag(false)
  {
    ViolationsAreTheUntrustedScopes(snapshot.data, snapshot.metadata);
    TrustedExactlyWhenLegible(snapshot.data, scope);
    TrustedExactlyWhenLegible(snapshot.data, Fault);
    GatesDecidePresence(snapshot.data, snapshot.metadata);
    if Legible(snapshot.data, Fault) {
      FaultSays(snapshot.data, snapshot.metadata);
    } else {
      assert !HasGroup(Decoded(snapshot), Fault);
    }
  }

  lemma {:induction false} LatestVerdictIsKept(restored: set<Kind>, settings: Settings, es: seq<Event>, scope: Scope)
    ensures var end := Run(Start(restored), settings, es);
            && end.monitoring == LatestTrust(es)
            && (scope in end.device.violated <==> InDoubt(es, scope))
            && (end.device.controllerLinkLost <==> LinkIsDown(es))
    decreases |es|
  {
    if es != [] {
      var before, e := es[..|es| - 1], es[|es| - 1];
      LatestVerdictIsKept(restored, settings, before, scope);
      StepMovesTheVerdict(Run(Start(restored), settings, before), settings, e);
      if e.Update? {
        UpdatesSayWhatTheFieldsSay(e.snapshot, scope);
      }
    }
  }

  lemma StepMovesTheVerdict(s: Accessory, settings: Settings, e: Event)
    ensures Step(s, settings, e).monitoring == if e.MarkMonitoring? then e.trust else s.monitoring
    ensures Step(s, settings, e).device ==
              if e.Update? then DistrustOf(e.snapshot) else if e.UpdateUnresolved? then UNRESOLVED else s.device
  {
  }

  /** Every scope the row reads is vouched for by the latest update, can be observed, and is not behind a lost link. */
  ghost predicate VouchedFor(es: seq<Event>, kind: Kind) {
    forall scope :: Reads(kind, scope) ==>
      && !InDoubt(es, scope)
      && !CannotBeObserved(scope, LatestTrust(es))
      && !(LinkIsDown(es) && !scope.Connectivity? && !kind.ControllerLinkAlert?)
  }

  /**
   * Over every run of updates and trust pushes, family resolved or not, in which no
   * refresh is still owed, each published service reports trust exactly when every
   * scope its characteristics read is legible in the latest update, can be observed by
   * the latest trust push, and is not behind a lost controller link the row does not
   * report itself. Services that Homebridge restored join at the first pass that
   * reaches every row.
   */
  lemma TrustReportsAreExact(restored: set<Kind>, settings: Settings, es: seq<Event>, kind: Kind)
    requires restored == {} || HasCompletedPass(Start(restored), settings, es)
    ensures var end := Run(Start(restored), settings, es);
            end.refreshPending || (kind in end.services ==> end.services[kind].active == Some(VouchedFor(es, kind)))
  {
    StartIsCurrent(restored);
    RunKeepsReport(Start(restored), settings, es);
    var end := Run(Start(restored), settings, es);
    FullyTrustedExactlyWhen(kind, end.device, end.monitoring);
    forall scope
      ensures end.monitoring == LatestTrust(es)
      ensures scope in end.device.violated <==> InDoubt(es, scope)
      ensures end.device.controllerLinkLost <==> LinkIsDown(es)
    {
      LatestVerdictIsKept(restored, settings, es, scope);
    }
  }

  /** Refused credentials withdraw every trust report, as soon as the push reaches every row. */
  lemma RefusedCredentialsWithdrawEveryReport(restored: set<Kind>, settings: Settings, es: seq<Event>, kind: Kind)
    requires restored == {} || HasCompletedPass(Start(restored), settings, es)
    requires LatestTrust(es).credentialsRejected
    ensures var end := Run(Start(restored), settings, es);
            end.refreshPending || (kind in end.services ==> end.services[kind].active == Some(false))
  {
    TrustReportsAreExact(restored, settings, es, kind);
    EveryRowReads(kind);
  }

  lemma EveryRowReads(kind: Kind)
    ensures exists scope :: Reads(kind, scope)
  {
    ReadScopesAreRead(kind, ScopeOf(kind));
  }

  /** A trust push is skipped only when it would change nothing: every service already reports that trust. */
  lemma SkippedPushesLoseNothing(s: Accessory, settings: Settings, trust: MonitoringTrust, pending: set<Kind>)
    requires ReasonsAreCurrent(s) && (ReportsTrust(s) || s.refreshPending)
    ensures var end := Step(s, settings, MarkMonitoring(trust, pending, map[]));
            && end.monitoring == trust
            && !end.refreshPending
            && forall kind :: kind in end.services ==> end.services[kind].active == Some(IsFullyTrusted(kind, ReasonsNow(s.device, trust)))
  {
    var e := MarkMonitoring(trust, pending, map[]);
    StepKeepsReasonsCurrent(s, settings, e);
    if Completes(s, e) {
      CompletedPassesReportTrust(s, settings, e);
    }
  }

  // ---- Where a published value comes from ----

  /** Some update in the run decoded this value, from a snapshot whose owning scope validated. */
  ghost predicate Witnessed(es: seq<Event>, kind: Kind, c: Characteristic, reading: Reading) {
    exists i :: 0 <= i < |es| && Supplies(es[i], kind, c, reading)
  }

  ghost predicate Supplies(e: Event, kind: Kind, c: Characteristic, reading: Reading) {
    && e.Update?
    && SourceOf(kind, c).Some?
    && SourceOf(kind, c).value !in UntrustedScopes(e.snapshot.data)
    && FactOf(kind, c, Decoded(e.snapshot)) == Some(reading)
  }

  /** What is kept of the device is the latest resolved snapshot, decoded. */
  ghost predicate KeepsLatest(s: Accessory, es: seq<Event>) {
    s.decoded.Some? ==> exists i :: 0 <= i < |es| && es[i].Update? && s.decoded.value == Decoded(es[i].snapshot)
  }

  ghost predicate AllWitnessed(services: Services, es: seq<Event>) {
    forall kind, c :: kind in services && c in services[kind].pushed && SourceOf(kind, c).Some? && !c.On? ==>
      Witnessed(es, kind, c, services[kind].pushed[c])
  }

  lemma WitnessesRemain(es: seq<Event>, e: Event, kind: Kind, c: Characteristic, reading: Reading)
    requires Witnessed(es, kind, c, reading)
    ensures Witnessed(es + [e], kind, c, reading)
  {
    var i :| 0 <= i < |es| && Supplies(es[i], kind, c, reading);
    assert Supplies((es + [e])[i], kind, c, reading);
  }

  lemma FactsComeFromValidScopes(kind: Kind, c: Characteristic, snapshot: Snapshot)
    requires FactOf(kind, c, Decoded(snapshot)).Some?
    ensures SourceOf(kind, c).Some? && SourceOf(kind, c).value !in UntrustedScopes(snapshot.data)
  {
    GatesDecidePresence(snapshot.data, snapshot.metadata);
    assert HasGroup(Decoded(snapshot), SourceOf(kind, c).value);
  }

  /** Whatever a row projects from the kept state was supplied by the update that decoded it. */
  lemma ProjectionsAreWitnessed(es: seq<Event>, kind: Kind, c: Characteristic, input: Input, i: int)
    requires 0 <= i < |es| && es[i].Update? && input.decoded == Some(Decoded(es[i].snapshot))
    requires c in Project(kind, input) && SourceOf(kind, c).Some?
    ensures Witnessed(es, kind, c, Project(kind, input)[c])
  {
    assert Candidate(kind, c, input) == TrustedFact(kind, c, input);
    FactsComeFromValidScopes(kind, c, es[i].snapshot);
    assert Supplies(es[i], kind, c, Project(kind, input)[c]);
  }

  lemma UndecodedProjectionsAreEmpty(kind: Kind, c: Characteristic, input: Input)
    requires input.decoded.None? && c in Project(kind, input)
    ensures SourceOf(kind, c).None?
  {
    assert Candidate(kind, c, input).Some?;
  }

  /** After a push, every value on a service but a switch's `On` is one it held before or one its row projected from the input. */
  ghost predicate OldOrProjected(before: Services, after: Services, input: Input) {
    forall kind, c :: kind in after && c in after[kind].pushed && !c.On? ==>
      || (kind in before && c in before[kind].pushed && after[kind].pushed[c] == before[kind].pushed[c])
      || (c in Project(kind, input) && after[kind].pushed[c] == Project(kind, input)[c])
  }

  lemma PassesPushProjections(services: Services, input: Input, suppressed: set<Kind>, failing: map<Kind, set<Characteristic>>)
    ensures OldOrProjected(services, AllPublished(services, input, suppressed), input)
    ensures OldOrProjected(services, AllRefreshed(services, input, suppressed, failing), input)
    ensures OldOrProjected(services, ControlsRefreshed(services, input), input)
  {
  }

  lemma PushesStayWitnessed(before: Services, after: Services, input: Input, es: seq<Event>, e: Event)
    requires AllWitnessed(before, es) && OldOrProjected(before, after, input)
    requires input.decoded.Some? ==> exists i :: 0 <= i < |es + [e]| && (es + [e])[i].Update? && input.decoded.value == Decoded((es + [e])[i].snapshot)
    ensures AllWitnessed(after, es + [e])
  {
    var run := es + [e];
    forall kind, c | kind in after && c in after[kind].pushed && SourceOf(kind, c).Some? && !c.On?
      ensures Witnessed(run, kind, c, after[kind].pushed[c])
    {
      if kind in before && c in before[kind].pushed && after[kind].pushed[c] == before[kind].pushed[c] {
        WitnessesRemain(es, e, kind, c, after[kind].pushed[c]);
      } else if input.decoded.None? {
        UndecodedProjectionsAreEmpty(kind, c, input);
      } else {
        var i :| 0 <= i < |run| && run[i].Update? && input.decoded.value == Decoded(run[i].snapshot);
        ProjectionsAreWitnessed(run, kind, c, input, i);
      }
    }
  }

  function PendingOf(e: Event): set<Kind> {
    if e.PressSent? || e.WriteStored? then {} else e.pending
  }

  /** The input an event's pass publishes from, if it publishes at all. */
  function InputFor(s: Accessory, settings: Settings, e: Event): Input {
    var after := Step(s, settings, e);
    InputOf(after, settings, if e.UpdateUnresolved? then None else after.decoded, PendingOf(e))
  }

  /** The services an event's pass leaves, before the control binder puts a value on a switch. */
  function PassOf(s: Accessory, settings: Settings, e: Event): Services {
    match e
    case PressSent(_) => s.services
    case WriteStored(_, _) => s.services
    case RefusalClears(_, live, pending) => if live then ControlsRepublished(s, settings, pending) else s.services
    case WindowCloses(kind, pending) => if kind in s.before then ControlsRepublished(s, settings, pending) else s.services
    case _ => Step(s, settings, e).services
  }

  /** The passes an event may run over the services. */
  ghost predicate IsAPass(before: Services, after: Services, input: Input, suppressed: set<Kind>, failing: map<Kind, set<Characteristic>>) {
    || after == before
    || after == AllPublished(before, input, suppressed)
    || after == AllRefreshed(before, input, suppressed, failing)
    || after == ControlsRefreshed(before, input)
  }

  function FailingOf(e: Event): map<Kind, set<Characteristic>> {
    if e.UpdateUnresolved? || e.MarkMonitoring? then e.failing else map[]
  }

  lemma StepIsAPass(s: Accessory, settings: Settings, e: Event)
    ensures IsAPass(s.services, PassOf(s, settings, e), InputFor(s, settings, e), settings.suppressed, FailingOf(e))
  {
    var after, input := PassOf(s, settings, e), InputFor(s, settings, e);
    match e
    case Update(_, _, _, _) => assert after == AllPublished(s.services, input, settings.suppressed);
    case UpdateUnresolved(_, _, _, failing) => assert after == AllRefreshed(s.services, input, settings.suppressed, failing);
    case MarkMonitoring(trust, _, failing) =>
      if trust != s.monitoring || s.refreshPending {
        assert after == AllRefreshed(s.services, input, settings.suppressed, failing);
      }
    case RefusalClears(_, _, pending) => assert input == InputOf(s, settings, s.decoded, pending);
    case WindowCloses(_, pending) => assert input == InputOf(s, settings, s.decoded, pending);
    case _ =>
  }

  /** The same services with the same values, except perhaps what a switch serves as `On`. */
  ghost predicate SameButOn(before: Services, after: Services) {
    && after.Keys == before.Keys
    && forall kind :: kind in before ==>
         && after[kind].active == before[kind].active
         && before[kind].pushed.Keys <= after[kind].pushed.Keys
         && forall c :: c in after[kind].pushed && !c.On? ==> c in before[kind].pushed && after[kind].pushed[c] == before[kind].pushed[c]
  }

  /** After its pass, an event of the control binder writes `On` and nothing else. */
  lemma StepWritesOnAlone(s: Accessory, settings: Settings, e: Event)
    ensures SameButOn(PassOf(s, settings, e), Step(s, settings, e).services)
  {
    var passed := PassOf(s, settings, e);
    match e
    case WriteStored(kind, asked) => WithOnWritesOnAlone(passed, kind, asked);
    case RefusalClears(kind, live, _) =>
      WithOnWritesOnAlone(passed, kind, OrElse(if live then ReportedControl(s, settings, kind) else None, ServedOn(passed, settings, kind)));
    case WindowCloses(kind, _) =>
      if kind in s.before {
        WithOnWritesOnAlone(passed, kind, OrElse(ReportedControl(s, settings, kind), s.before[kind]));
      }
    case _ =>
  }

  lemma WithOnWritesOnAlone(services: Services, kind: Kind, on: bool)
    ensures SameButOn(services, WithOn(services, kind, on))
  {
  }

  lemma PassesStayOldOrProjected(s: Accessory, settings: Settings, e: Event)
    ensures OldOrProjected(s.services, PassOf(s, settings, e), InputFor(s, settings, e))
  {
    StepIsAPass(s, settings, e);
    PassesPushProjections(s.services, InputFor(s, settings, e), settings.suppressed, FailingOf(e));
  }

  lemma StepsPushProjections(s: Accessory, settings: Settings, e: Event)
    ensures OldOrProjected(s.services, Step(s, settings, e).services, InputFor(s, settings, e))
  {
    PassesStayOldOrProjected(s, settings, e);
    StepWritesOnAlone(s, settings, e);
  }

  lemma LatestIsKept(s: Accessory, settings: Settings, es: seq<Event>, e: Event)
    requires KeepsLatest(s, es)
    ensures KeepsLatest(Step(s, settings, e), es + [e])
  {
    var run := es + [e];
    assert run[|es|] == e;
    if !e.Update? && s.decoded.Some? {
      var i :| 0 <= i < |es| && es[i].Update? && s.decoded.value == Decoded(es[i].snapshot);
      assert run[i] == es[i];
    }
  }

  lemma {:induction false} RunKeepsWitnesses(restored: set<Kind>, settings: Settings, es: seq<Event>)
    ensures KeepsLatest(Run(Start(restored), settings, es), es)
    ensures AllWitnessed(Run(Start(restored), settings, es).services, es)
    decreases |es|
  {
    if es != [] {
      var before, e := es[..|es| - 1], es[|es| - 1];
      assert es == before + [e];
      RunKeepsWitnesses(restored, settings, before);
      var s := Run(Start(restored), settings, before);
      LatestIsKept(s, settings, before, e);
      StepsPushProjections(s, settings, e);
      PushesStayWitnessed(s.services, Step(s, settings, e).services, InputFor(s, settings, e), before, e);
    }
  }

  /**
   * Over every run, also one in which pushes fail part-way, a device value this run
   * put on a sensor is a fact some snapshot reported whose owning scope validated:
   * no field that failed validation is ever published, and nothing is made up.
   */
  lemma NoValueFromAnInvalidScope(restored: set<Kind>, settings: Settings, es: seq<Event>, kind: Kind, c: Characteristic)
    ensures var services := Run(Start(restored), settings, es).services;
            kind in services && c in services[kind].pushed && SourceOf(kind, c).Some? && !c.On? ==>
              Witnessed(es, kind, c, services[kind].pushed[c])
  {
    RunKeepsWitnesses(restored, settings, es);
  }

  /** So every device value on a sensor is what the vendor's own fields said in some snapshot whose owning scope validated. */
  lemma PublishedValuesAreReported(restored: set<Kind>, settings: Settings, es: seq<Event>, kind: Kind, c: Characteristic) returns (i: int)
    requires var services := Run(Start(restored), settings, es).services;
             kind in services && c in services[kind].pushed && SourceOf(kind, c).Some? && !c.On?
    ensures 0 <= i < |es| && es[i].Update? && SourceOf(kind, c).value !in UntrustedScopes(es[i].snapshot.data)
    ensures Run(Start(restored), settings, es).services[kind].pushed[c] == Reported(kind, c, es[i].snapshot.data)
  {
    NoValueFromAnInvalidScope(restored, settings, es, kind, c);
    var reading := Run(Start(restored), settings, es).services[kind].pushed[c];
    i :| 0 <= i < |es| && Supplies(es[i], kind, c, reading);
    FactsAreTheFields(kind, c, es[i].snapshot.data, es[i].snapshot.metadata);
  }

  /**
   * And an update shows its own payload: on every service it leaves in place, each
   * characteristic whose scope and whose row's scope are not in doubt carries what
   * this snapshot's fields say, unless an unresolved request withholds a control.
   */
  lemma UpdatesShowThePayload(s: Accessory, settings: Settings, e: Event, kind: Kind, c: Characteristic)
    requires e.Update? && SourceOf(kind, c).Some? && !(c.On? && kind in e.pending)
    ensures var after := Step(s, settings, e);
            && kind in after.services
            && IsPublishable(kind, ScopeOf(kind), after.untrusted)
            && IsPublishable(kind, SourceOf(kind, c).value, after.untrusted)
            ==> c in after.services[kind].pushed && after.services[kind].pushed[c] == Reported(kind, c, e.snapshot.data)
  {
    var after := Step(s, settings, e);
    if kind in after.services && IsPublishable(kind, ScopeOf(kind), after.untrusted) && IsPublishable(kind, SourceOf(kind, c).value, after.untrusted) {
      PublishableFactsAreShown(s, settings, e, kind, c);
    }
  }

  lemma PublishableFactsAreShown(s: Accessory, settings: Settings, e: Event, kind: Kind, c: Characteristic)
    requires e.Update? && SourceOf(kind, c).Some? && !(c.On? && kind in e.pending)
    requires kind in Step(s, settings, e).services
    requires IsPublishable(kind, ScopeOf(kind), Step(s, settings, e).untrusted)
    requires IsPublishable(kind, SourceOf(kind, c).value, Step(s, settings, e).untrusted)
    ensures var service := Step(s, settings, e).services[kind];
            c in service.pushed && service.pushed[c] == Reported(kind, c, e.snapshot.data)
  {
    var input, data := InputFor(s, settings, e), e.snapshot.data;
    ViolationsAreTheUntrustedScopes(data, e.snapshot.metadata);
    WithheldExactlyWhen(kind, SourceOf(kind, c).value, DistrustOf(e.snapshot), s.monitoring);
    FactsAreTheFields(kind, c, data, e.snapshot.metadata);
    CandidatesAreFacts(kind, c, input);
    CompletedPassesPush(s.services, input, settings.suppressed, map[], kind);
    assert Step(s, settings, e).services == AllPublished(s.services, input, settings.suppressed);
    assert (c, Reported(kind, c, data)) in Project(kind, input).Items;
  }

  lemma CandidatesAreFacts(kind: Kind, c: Characteristic, input: Input)
    requires SourceOf(kind, c).Some? && input.decoded.Some?
    requires IsPublishable(kind, ScopeOf(kind), input.untrusted) && IsPublishable(kind, SourceOf(kind, c).value, input.untrusted)
    requires !(c.On? && kind in input.pendingControls) && FactOf(kind, c, input.decoded.value).Some?
    ensures c in Project(kind, input) && Some(Project(kind, input)[c]) == FactOf(kind, c, input.decoded.value)
  {
    assert TrustedFact(kind, c, input) == FactOf(kind, c, input.decoded.value);
    assert Candidate(kind, c, input) == TrustedFact(kind, c, input);
  }

  lemma UpdatesPublishProjections(s: Accessory, settings: Settings, e: Event, kind: Kind, c: Characteristic)
    requires e.Update? && kind !in settings.suppressed && c in Project(kind, InputFor(s, settings, e))
    ensures var services := Step(s, settings, e).services;
            kind in services && c in services[kind].pushed && services[kind].pushed[c] == Project(kind, InputFor(s, settings, e))[c]
  {
    UpdatesAreAPass(s, settings, e);
    var input := InputFor(s, settings, e);
    PublishedRowsAreThere(s.services, input, settings.suppressed, kind, c);
  }

  lemma UpdatesAreAPass(s: Accessory, settings: Settings, e: Event)
    requires e.Update?
    ensures Step(s, settings, e).services == AllPublished(s.services, InputFor(s, settings, e), settings.suppressed)
  {
  }

  /** The flood row's values are not withheld by an update whose level is legible and whose link is not down. */
  lemma FloodIsProjected(s: Accessory, settings: Settings, e: Event)
    requires e.Update? && Legible(e.snapshot.data, Water) && !LinkIsDown([e])
    ensures var input := InputFor(s, settings, e);
            && LeakDetected in Project(SumpPitFlood, input)
            && Project(SumpPitFlood, input)[LeakDetected] == Alarm(NumberAt(e.snapshot.data, Key.WaterLevel) == 31.0)
  {
    var data := e.snapshot.data;
    UpdatesSayWhatTheFieldsSay(e.snapshot, Water);
    TrustedExactlyWhenLegible(data, Water);
    WithheldExactlyWhen(SumpPitFlood, Water, DistrustOf(e.snapshot), s.monitoring);
    FactsAreTheFields(SumpPitFlood, LeakDetected, data, e.snapshot.metadata);
    CandidatesAreFacts(SumpPitFlood, LeakDetected, InputFor(s, settings, e));
  }

  /**
   * A full pit reaches HomeKit: whatever the accessory held before and whatever else
   * the payload carries, an update with the full level code whose controller link is
   * not down leaves the leak raised, and one with any lower code leaves it cleared.
   */
  lemma FullPitsRaiseTheLeak(s: Accessory, settings: Settings, e: Event, fifths: nat)
    requires e.Update? && SumpPitFlood !in settings.suppressed && !LinkIsDown([e])
    requires fifths <= 5 && Key.WaterLevel in e.snapshot.data && e.snapshot.data[Key.WaterLevel] == Telemetry.Number(Thermometer(fifths) as real)
    ensures var services := Step(s, settings, e).services;
            && SumpPitFlood in services && LeakDetected in services[SumpPitFlood].pushed
            && services[SumpPitFlood].pushed[LeakDetected] == Alarm(fifths == 5)
  {
    assert IsThermometer(Thermometer(fifths) as real);
    FloodIsProjected(s, settings, e);
    UpdatesPublishProjections(s, settings, e, SumpPitFlood, LeakDetected);
    ThermometersOfAPit(fifths);
  }

  lemma ThermometersOfAPit(fifths: nat)
    requires fifths <= 5
    ensures Thermometer(fifths) as real == 31.0 <==> fifths == 5
  {
    assert Thermometer(0) == 0 && Thermometer(1) == 1 && Thermometer(2) == 3;
    assert Thermometer(3) == 7 && Thermometer(4) == 15 && Thermometer(5) == 31;
  }

  // ---- Which rows are there, and which stand still ----

  /** The latest update puts this scope of the row in doubt: its fields, or a lost link that no lost transport explains. */
  ghost predicate PutsInDoubt(e: Event, kind: Kind, scope: Scope, trust: MonitoringTrust)
    requires e.Update?
  {
    || !Legible(e.snapshot.data, scope)
    || (LinkIsDown([e]) && !scope.Connectivity? && !CannotBeObserved(scope, trust) && !kind.ControllerLinkAlert?)
  }

  lemma DoubtIsWithheld(s: Accessory, settings: Settings, e: Event, kind: Kind, scope: Scope)
    requires e.Update?
    ensures IsPublishable(kind, scope, InputFor(s, settings, e).untrusted) <==> !PutsInDoubt(e, kind, scope, s.monitoring)
  {
    UpdatesSayWhatTheFieldsSay(e.snapshot, scope);
    WithheldExactlyWhen(kind, scope, DistrustOf(e.snapshot), s.monitoring);
  }

  lemma DoubtfulRowsProjectNothing(s: Accessory, settings: Settings, e: Event, kind: Kind)
    requires e.Update? && !AlwaysPublishes(kind)
    ensures Project(kind, InputFor(s, settings, e)) == map[] <==> PutsInDoubt(e, kind, ScopeOf(kind), s.monitoring)
  {
    DoubtIsWithheld(s, settings, e, kind, ScopeOf(kind));
    if !PutsInDoubt(e, kind, ScopeOf(kind), s.monitoring) {
      LegibleRowsProject(s, settings, e, kind);
    }
  }

  lemma LegibleRowsProject(s: Accessory, settings: Settings, e: Event, kind: Kind)
    requires e.Update? && !AlwaysPublishes(kind) && !PutsInDoubt(e, kind, ScopeOf(kind), s.monitoring)
    ensures Project(kind, InputFor(s, settings, e)) != map[]
  {
    var input, c := InputFor(s, settings, e), CharacteristicOf(kind, ScopeOf(kind));
    DoubtIsWithheld(s, settings, e, kind, ScopeOf(kind));
    if kind.OfflineAlert? {
      assert Candidate(kind, ContactSensorState, input).Some?;
      assert ContactSensorState in Project(kind, input);
    } else {
      TrustedExactlyWhenLegible(e.snapshot.data, ScopeOf(kind));
      FactsAreTheFields(kind, c, e.snapshot.data, e.snapshot.metadata);
      CandidatesAreFacts(kind, c, input);
      assert c in Project(kind, input);
    }
  }

  /**
   * After an update a row's service is there exactly when the owner has not turned the
   * row off and it was there before, is a control, or has legible fields to publish.
   */
  lemma RowsAreThereExactlyWhen(s: Accessory, settings: Settings, e: Event, kind: Kind)
    requires e.Update?
    ensures kind in Step(s, settings, e).services <==>
              && kind !in settings.suppressed
              && (kind in s.services || AlwaysPublishes(kind) || !PutsInDoubt(e, kind, ScopeOf(kind), s.monitoring))
  {
    UpdatesAreAPass(s, settings, e);
    if !AlwaysPublishes(kind) {
      DoubtfulRowsProjectNothing(s, settings, e, kind);
    }
  }

  /** A row whose own scope an update puts in doubt keeps every value it carried, and gets no new one. */
  lemma DoubtfulRowsStandStill(s: Accessory, settings: Settings, e: Event, kind: Kind)
    requires e.Update? && kind in s.services && kind !in settings.suppressed && PutsInDoubt(e, kind, ScopeOf(kind), s.monitoring)
    ensures kind in Step(s, settings, e).services && Step(s, settings, e).services[kind].pushed == s.services[kind].pushed
  {
    UpdatesAreAPass(s, settings, e);
    DoubtIsWithheld(s, settings, e, kind, ScopeOf(kind));
    var all := AllPublished(s.services, InputFor(s, settings, e), settings.suppressed);
    assert At(all, kind) == RowPublished(At(s.services, kind), kind, InputFor(s, settings, e), settings.suppressed);
    assert s.services[kind].pushed + map[] == s.services[kind].pushed;
  }

  /** So does one characteristic whose own scope is in doubt, on a row that goes on publishing the others. */
  lemma DoubtfulValuesStandStill(s: Accessory, settings: Settings, e: Event, kind: Kind, c: Characteristic)
    requires e.Update? && kind in s.services && kind !in settings.suppressed
    requires SourceOf(kind, c).Some? && PutsInDoubt(e, kind, SourceOf(kind, c).value, s.monitoring)
    ensures var was, now := s.services[kind].pushed, Step(s, settings, e).services;
            kind in now && (c in now[kind].pushed <==> c in was) && (c in was ==> now[kind].pushed[c] == was[c])
  {
    DoubtIsWithheld(s, settings, e, kind, SourceOf(kind, c).value);
    WithheldValuesAreNotProjected(kind, c, InputFor(s, settings, e));
    UpdatesKeepTheRest(s, settings, e, kind, c);
  }

  lemma WithheldValuesAreNotProjected(kind: Kind, c: Characteristic, input: Input)
    requires SourceOf(kind, c).Some? && !IsPublishable(kind, SourceOf(kind, c).value, input.untrusted)
    ensures c !in Project(kind, input)
  {
    assert TrustedFact(kind, c, input).None?;
  }

  lemma UpdatesKeepTheRest(s: Accessory, settings: Settings, e: Event, kind: Kind, c: Characteristic)
    requires e.Update? && kind in s.services && kind !in settings.suppressed && c !in Project(kind, InputFor(s, settings, e))
    ensures var was, now := s.services[kind].pushed, Step(s, settings, e).services;
            kind in now && (c in now[kind].pushed <==> c in was) && (c in was ==> now[kind].pushed[c] == was[c])
  {
    UpdatesAreAPass(s, settings, e);
    PassesKeepTheRest(s.services, InputFor(s, settings, e), settings.suppressed, kind, c);
  }

  lemma PassesKeepTheRest(services: Services, input: Input, suppressed: set<Kind>, kind: Kind, c: Characteristic)
    requires kind in services && kind !in suppressed && c !in Project(kind, input)
    ensures var was, all := services[kind].pushed, AllPublished(services, input, suppressed);
            kind in all && (c in all[kind].pushed <==> c in was) && (c in was ==> all[kind].pushed[c] == was[c])
  {
  }

  /** What a pump tile says of its own pump's record: the self-test label belongs to the backup pump alone. */
  function RecordSays(kind: Kind, c: Characteristic, records: PumpRecords.Record): Option<Reading> {
    match c
    case ObservationStartedAt =>
      Some(Time(Some(if kind.PrimaryPump? then records.primary.observationStartedAt else records.backup.observationStartedAt)))
    case ObservedActivationCount => Some(Count(if kind.PrimaryPump? then records.primary.activationCount else records.backup.activationCount))
    case LastObservedActivationAt => Some(Time(if kind.PrimaryPump? then records.primary.lastActivationAt else records.backup.lastActivationAt))
    case LastActivationWasTestActivity =>
      if kind.BackupPump? && records.backup.testActivity.Some? then Some(Truth(records.backup.testActivity.value)) else None
    case _ => None
  }

  /** An update whose pump group is legible, and whose link is not down, leaves each pump's own record on its tile. */
  lemma UpdatesShowTheRecords(s: Accessory, settings: Settings, e: Event, kind: Kind, c: Characteristic)
    requires e.Update? && (kind.PrimaryPump? || kind.BackupPump?) && kind !in settings.suppressed
    requires Legible(e.snapshot.data, Pump) && !LinkIsDown([e]) && RecordSays(kind, c, e.records).Some?
    ensures var services := Step(s, settings, e).services;
            kind in services && c in services[kind].pushed && Some(services[kind].pushed[c]) == RecordSays(kind, c, e.records)
  {
    RecordsAreProjected(s, settings, e, kind, c);
    UpdatesPublishProjections(s, settings, e, kind, c);
  }

  lemma RecordsAreProjected(s: Accessory, settings: Settings, e: Event, kind: Kind, c: Characteristic)
    requires e.Update? && (kind.PrimaryPump? || kind.BackupPump?)
    requires Legible(e.snapshot.data, Pump) && !LinkIsDown([e]) && RecordSays(kind, c, e.records).Some?
    ensures var projected := Project(kind, InputFor(s, settings, e));
            c in projected && Some(projected[c]) == RecordSays(kind, c, e.records)
  {
    var input := InputFor(s, settings, e);
    UpdatesSayWhatTheFieldsSay(e.snapshot, Pump);
    TrustedExactlyWhenLegible(e.snapshot.data, Pump);
    WithheldExactlyWhen(kind, Pump, DistrustOf(e.snapshot), s.monitoring);
    FactsAreTheFields(kind, PumpRunning, e.snapshot.data, e.snapshot.metadata);
    CandidatesAreFacts(kind, PumpRunning, input);
    assert input.records == Some(e.records);
    RecordFactsAreSaid(kind, c, input, e.records);
  }

  lemma RecordFactsAreSaid(kind: Kind, c: Characteristic, input: Input, records: PumpRecords.Record)
    requires (kind.PrimaryPump? || kind.BackupPump?) && input.records == Some(records) && RecordSays(kind, c, records).Some?
    requires PumpRunning in Project(kind, input)
    ensures c in Project(kind, input) && Some(Project(kind, input)[c]) == RecordSays(kind, c, records)
  {
    assert Candidate(kind, PumpRunning, input) == TrustedFact(kind, PumpRunning, input);
    assert Candidate(kind, c, input) == RecordFact(kind, c, input);
  }

  // ---- When a scope was last vouched for ----

  /** The update at `k` vouched for the scope: legible, observable then, and not behind a lost link; connectivity is the poll's alone. */
  ghost predicate VouchedAt(es: seq<Event>, k: nat, scope: Scope)
    requires k < |es|
  {
    && (es[k].Update? || es[k].UpdateUnresolved?)
    && !InDoubt(es[..k + 1], scope)
    && if scope.Connectivity? then es[k].source.Poll? && !LatestTrust(es[..k]).credentialsRejected
       else !CannotBeObserved(scope, LatestTrust(es[..k])) && !LinkIsDown(es[..k + 1])
  }

  ghost predicate VouchedLast(es: seq<Event>, k: nat, scope: Scope) {
    k < |es| && VouchedAt(es, k, scope) && forall j :: k < j < |es| ==> !VouchedAt(es, j, scope)
  }

  lemma StepStampsScopes(restored: set<Kind>, settings: Settings, before: seq<Event>, e: Event, scope: Scope)
    ensures var s, es := Run(Start(restored), settings, before), before + [e];
            var t := Step(s, settings, e);
            if VouchedAt(es, |before|, scope) then scope in t.lastTrustedAt && t.lastTrustedAt[scope] == e.snapshot.receivedAt
            else (scope in t.lastTrustedAt <==> scope in s.lastTrustedAt) && (scope in s.lastTrustedAt ==> t.lastTrustedAt[scope] == s.lastTrustedAt[scope])
  {
    var s := Run(Start(restored), settings, before);
    ScopesAreListed(scope);
    if e.Update? || e.UpdateUnresolved? {
      var device := if e.Update? then DistrustOf(e.snapshot) else UNRESOLVED;
      VouchesAreTold(restored, settings, before, e, scope);
      StampsAreVouched(s, settings, e, device, scope);
    } else {
      OthersStampNothing(s, settings, e);
    }
  }

  lemma OthersStampNothing(s: Accessory, settings: Settings, e: Event)
    requires !e.Update? && !e.UpdateUnresolved?
    ensures Step(s, settings, e).lastTrustedAt == s.lastTrustedAt
  {
  }

  lemma VouchesAreTold(restored: set<Kind>, settings: Settings, before: seq<Event>, e: Event, scope: Scope)
    requires e.Update? || e.UpdateUnresolved?
    ensures var s, device := Run(Start(restored), settings, before), if e.Update? then DistrustOf(e.snapshot) else UNRESOLVED;
            VouchedAt(before + [e], |before|, scope) <==>
              && scope !in device.violated
              && if scope.Connectivity? then e.source.Poll? && !s.monitoring.credentialsRejected
                 else !CannotBeObserved(scope, s.monitoring) && !device.controllerLinkLost
  {
    var es := before + [e];
    assert es[..|before| + 1] == es && es[..|before|] == before;
    LatestVerdictIsKept(restored, settings, before, scope);
    ScopesAreListed(scope);
    if e.Update? {
      UpdatesSayWhatTheFieldsSay(e.snapshot, scope);
    }
  }

  lemma StampsAreVouched(s: Accessory, settings: Settings, e: Event, device: DeviceDistrust, scope: Scope)
    requires e.Update? || e.UpdateUnresolved?
    requires device == if e.Update? then DistrustOf(e.snapshot) else UNRESOLVED
    ensures Step(s, settings, e).lastTrustedAt == TrustedAt(s.lastTrustedAt, device, s.monitoring, e.snapshot.receivedAt, e.source)
    ensures Vouches(scope, device, s.monitoring, e.source) <==>
              && scope !in device.violated
              && if scope.Connectivity? then e.source.Poll? && !s.monitoring.credentialsRejected
                 else !CannotBeObserved(scope, s.monitoring) && !device.controllerLinkLost
  {
    ScopesAreListed(scope);
    DegradedExactlyWhenUnobservable(scope, s.monitoring);
  }

  /** The time a scope was last trusted is the receipt time of the latest snapshot that vouched for it, and there is none before the first. */
  lemma {:induction false} LastTrustedIsTheLatestVouch(restored: set<Kind>, settings: Settings, es: seq<Event>, scope: Scope)
    ensures var times := Run(Start(restored), settings, es).lastTrustedAt;
            && (forall k: nat :: VouchedLast(es, k, scope) ==> scope in times && times[scope] == es[k].snapshot.receivedAt)
            && (scope in times ==> exists k: nat :: VouchedLast(es, k, scope))
    decreases |es|
  {
    if es != [] {
      var before, e := es[..|es| - 1], es[|es| - 1];
      assert es == before + [e];
      LastTrustedIsTheLatestVouch(restored, settings, before, scope);
      StepStampsScopes(restored, settings, before, e, scope);
      OneMoreVouch(before, e, scope);
      if VouchedAt(es, |before|, scope) {
        assert VouchedLast(es, |before|, scope);
      } else if k: nat :| VouchedLast(before, k, scope) {
        assert VouchedLast(es, k, scope);
      }
    }
  }

  lemma OneMoreVouch(before: seq<Event>, e: Event, scope: Scope)
    ensures var es := before + [e];
            if VouchedAt(es, |before|, scope) then forall k: nat :: VouchedLast(es, k, scope) <==> k == |before|
            else forall k: nat :: VouchedLast(es, k, scope) <==> VouchedLast(before, k, scope)
  {
    var es := before + [e];
    forall k: nat | k < |before| ensures VouchedAt(es, k, scope) <==> VouchedAt(before, k, scope) {
      assert es[..k + 1] == before[..k + 1] && es[..k] == before[..k];
    }
  }

  /** And the controller-link tile shows it for the controller's own fault group, whenever that group is legible. */
  lemma LinkTilesShowTheLastTrust(s: Accessory, settings: Settings, e: Event)
    requires e.Update? && ControllerLinkAlert !in settings.suppressed && Legible(e.snapshot.data, Fault)
    ensures var after := Step(s, settings, e);
            && ControllerLinkAlert in after.services && ControllerDataLastTrustedAt in after.services[ControllerLinkAlert].pushed
            && after.services[ControllerLinkAlert].pushed[ControllerDataLastTrustedAt] ==
                 Time(if Fault in after.lastTrustedAt then Some(after.lastTrustedAt[Fault]) else None)
  {
    var input := InputFor(s, settings, e);
    UpdatesSayWhatTheFieldsSay(e.snapshot, Fault);
    TrustedExactlyWhenLegible(e.snapshot.data, Fault);
    WithheldExactlyWhen(ControllerLinkAlert, Fault, DistrustOf(e.snapshot), s.monitoring);
    FactsAreTheFields(ControllerLinkAlert, ControllerLinkPresent, e.snapshot.data, e.snapshot.metadata);
    assert TrustedFact(ControllerLinkAlert, ControllerLinkPresent, input).Some?;
    assert Candidate(ControllerLinkAlert, ControllerDataLastTrustedAt, input).Some?;
    UpdatesPublishProjections(s, settings, e, ControllerLinkAlert, ControllerDataLastTrustedAt);
  }

  // ---- What a switch serves ----

  /** A value a switch may serve: the one it came up with, one HAP stored for a write, or one a valid snapshot reported. */
  ghost predicate OnAccounted(settings: Settings, es: seq<Event>, kind: Kind, on: bool) {
    || on == (kind in settings.restoredOn)
    || WriteStored(kind, on) in es
    || Witnessed(es, kind, On, Truth(on))
  }

  ghost predicate SwitchesAccounted(services: Services, settings: Settings, es: seq<Event>) {
    forall kind :: kind in services && On in services[kind].pushed ==>
      services[kind].pushed[On].Truth? && OnAccounted(settings, es, kind, services[kind].pushed[On].truth)
  }

  ghost predicate AllAccounted(s: Accessory, settings: Settings, es: seq<Event>) {
    && SwitchesAccounted(s.services, settings, es)
    && forall kind :: kind in s.before ==> OnAccounted(settings, es, kind, s.before[kind])
  }

  lemma AccountsRemain(settings: Settings, es: seq<Event>, e: Event, kind: Kind, on: bool)
    requires OnAccounted(settings, es, kind, on)
    ensures OnAccounted(settings, es + [e], kind, on)
  {
    if Witnessed(es, kind, On, Truth(on)) {
      WitnessesRemain(es, e, kind, On, Truth(on));
    }
  }

  lemma OnlyControlsServeOn(kind: Kind, input: Input)
    requires On in Project(kind, input)
    ensures input.decoded.Some? && SourceOf(kind, On).Some? && Project(kind, input)[On].Truth?
  {
    assert Candidate(kind, On, input).Some?;
  }

  /** Every value of `On` after a pass was there before it, or is the row's own fact. */
  ghost predicate OnOldOrProjected(before: Services, after: Services, input: Input) {
    forall kind :: kind in after && On in after[kind].pushed ==>
      || (kind in before && On in before[kind].pushed && after[kind].pushed[On] == before[kind].pushed[On])
      || (On in Project(kind, input) && after[kind].pushed[On] == Project(kind, input)[On])
  }

  lemma PassesProjectOn(services: Services, input: Input, suppressed: set<Kind>, failing: map<Kind, set<Characteristic>>)
    ensures OnOldOrProjected(services, AllPublished(services, input, suppressed), input)
    ensures OnOldOrProjected(services, AllRefreshed(services, input, suppressed, failing), input)
    ensures OnOldOrProjected(services, ControlsRefreshed(services, input), input)
  {
  }

  /** Some update of the run decoded what the input holds. */
  ghost predicate FromRun(input: Input, es: seq<Event>) {
    input.decoded.Some? ==> exists i :: 0 <= i < |es| && es[i].Update? && input.decoded.value == Decoded(es[i].snapshot)
  }

  lemma PassesStayAccounted(before: Services, after: Services, settings: Settings, input: Input, es: seq<Event>, e: Event)
    requires SwitchesAccounted(before, settings, es) && OnOldOrProjected(before, after, input) && FromRun(input, es + [e])
    ensures SwitchesAccounted(after, settings, es + [e])
  {
    var run := es + [e];
    forall kind | kind in after && On in after[kind].pushed
      ensures after[kind].pushed[On].Truth? && OnAccounted(settings, run, kind, after[kind].pushed[On].truth)
    {
      if kind in before && On in before[kind].pushed && after[kind].pushed[On] == before[kind].pushed[On] {
        AccountsRemain(settings, es, e, kind, before[kind].pushed[On].truth);
      } else {
        OnlyControlsServeOn(kind, input);
        var i :| 0 <= i < |run| && run[i].Update? && input.decoded.value == Decoded(run[i].snapshot);
        ProjectionsAreWitnessed(run, kind, On, input, i);
      }
    }
  }

  /** What the binder reads as reported was supplied by the update that is kept. */
  lemma ReportedControlsAreAccounted(s: Accessory, settings: Settings, es: seq<Event>, kind: Kind)
    requires KeepsLatest(s, es) && ReportedControl(s, settings, kind).Some?
    ensures OnAccounted(settings, es, kind, ReportedControl(s, settings, kind).value)
  {
    var i :| 0 <= i < |es| && es[i].Update? && s.decoded.value == Decoded(es[i].snapshot);
    FactsComeFromValidScopes(kind, On, es[i].snapshot);
    assert Supplies(es[i], kind, On, Truth(ReportedControl(s, settings, kind).value));
  }

  lemma WritingOnStaysAccounted(services: Services, settings: Settings, es: seq<Event>, kind: Kind, on: bool)
    requires SwitchesAccounted(services, settings, es) && OnAccounted(settings, es, kind, on)
    ensures SwitchesAccounted(WithOn(services, kind, on), settings, es)
  {
  }

  lemma ServedIsAccounted(services: Services, settings: Settings, es: seq<Event>, kind: Kind)
    requires SwitchesAccounted(services, settings, es)
    ensures OnAccounted(settings, es, kind, ServedOn(services, settings, kind))
  {
  }

  lemma StoredWritesAreAccounted(s: Accessory, settings: Settings, es: seq<Event>, kind: Kind, asked: bool)
    requires SwitchesAccounted(s.services, settings, es + [WriteStored(kind, asked)])
    ensures SwitchesAccounted(Step(s, settings, WriteStored(kind, asked)).services, settings, es + [WriteStored(kind, asked)])
  {
    var run := es + [WriteStored(kind, asked)];
    assert run[|es|] == WriteStored(kind, asked);
    WritingOnStaysAccounted(s.services, settings, run, kind, asked);
  }

  lemma ClearingStaysAccounted(s: Accessory, settings: Settings, es: seq<Event>, e: Event)
    requires KeepsLatest(s, es) && e.RefusalClears? && SwitchesAccounted(PassOf(s, settings, e), settings, es + [e])
    ensures SwitchesAccounted(Step(s, settings, e).services, settings, es + [e])
  {
    var passed, reported := PassOf(s, settings, e), if e.live then ReportedControl(s, settings, e.kind) else None;
    if reported.Some? {
      ReportedControlsAreAccounted(s, settings, es, e.kind);
      AccountsRemain(settings, es, e, e.kind, reported.value);
    }
    ServedIsAccounted(passed, settings, es + [e], e.kind);
    WritingOnStaysAccounted(passed, settings, es + [e], e.kind, OrElse(reported, ServedOn(passed, settings, e.kind)));
  }

  lemma ClosingStaysAccounted(s: Accessory, settings: Settings, es: seq<Event>, e: Event)
    requires AllAccounted(s, settings, es) && KeepsLatest(s, es)
    requires e.WindowCloses? && e.kind in s.before && SwitchesAccounted(PassOf(s, settings, e), settings, es + [e])
    ensures SwitchesAccounted(Step(s, settings, e).services, settings, es + [e])
  {
    var passed, reported := PassOf(s, settings, e), ReportedControl(s, settings, e.kind);
    if reported.Some? {
      ReportedControlsAreAccounted(s, settings, es, e.kind);
      AccountsRemain(settings, es, e, e.kind, reported.value);
    }
    AccountsRemain(settings, es, e, e.kind, s.before[e.kind]);
    WritingOnStaysAccounted(passed, settings, es + [e], e.kind, OrElse(reported, s.before[e.kind]));
  }

  /** The value a binder's event puts on a switch is reported, served already, asked for, or served before the press. */
  lemma BinderValuesAreAccounted(s: Accessory, settings: Settings, es: seq<Event>, e: Event)
    requires AllAccounted(s, settings, es) && KeepsLatest(s, es)
    requires e.WriteStored? || e.RefusalClears? || e.WindowCloses?
    requires SwitchesAccounted(PassOf(s, settings, e), settings, es + [e])
    ensures SwitchesAccounted(Step(s, settings, e).services, settings, es + [e])
  {
    if e.WriteStored? {
      StoredWritesAreAccounted(s, settings, es, e.kind, e.asked);
    } else if e.RefusalClears? {
      ClearingStaysAccounted(s, settings, es, e);
    } else if e.kind in s.before {
      ClosingStaysAccounted(s, settings, es, e);
    }
  }

  lemma WindowsStayAccounted(s: Accessory, settings: Settings, es: seq<Event>, e: Event)
    requires AllAccounted(s, settings, es)
    ensures forall kind :: kind in Step(s, settings, e).before ==> OnAccounted(settings, es + [e], kind, Step(s, settings, e).before[kind])
  {
    forall kind | kind in Step(s, settings, e).before
      ensures OnAccounted(settings, es + [e], kind, Step(s, settings, e).before[kind])
    {
      ServedIsAccounted(s.services, settings, es, kind);
      AccountsRemain(settings, es, e, kind, Step(s, settings, e).before[kind]);
    }
  }

  lemma PassStaysAccounted(s: Accessory, settings: Settings, es: seq<Event>, e: Event)
    requires AllAccounted(s, settings, es) && KeepsLatest(s, es)
    ensures SwitchesAccounted(PassOf(s, settings, e), settings, es + [e])
  {
    var input := InputFor(s, settings, e);
    LatestIsKept(s, settings, es, e);
    StepIsAPass(s, settings, e);
    PassesProjectOn(s.services, input, settings.suppressed, FailingOf(e));
    PassesStayAccounted(s.services, PassOf(s, settings, e), settings, input, es, e);
  }

  lemma {:induction false} RunKeepsAccounts(restored: set<Kind>, settings: Settings, es: seq<Event>)
    ensures AllAccounted(Run(Start(restored), settings, es), settings, es)
    decreases |es|
  {
    if es != [] {
      var before, e := es[..|es| - 1], es[|es| - 1];
      assert es == before + [e];
      RunKeepsAccounts(restored, settings, before);
      RunKeepsWitnesses(restored, settings, before);
      var s := Run(Start(restored), settings, before);
      PassStaysAccounted(s, settings, before, e);
      WindowsStayAccounted(s, settings, before, e);
      if e.WriteStored? || e.RefusalClears? || e.WindowCloses? {
        BinderValuesAreAccounted(s, settings, before, e);
      }
    }
  }

  /**
   * Over every run, through presses, refusals, clearing pushes and closing windows, a
   * switch serves the value it came up with, a value HAP stored for an answered write,
   * or what the vendor's field said in some snapshot whose scope validated.
   */
  lemma SwitchesServeNothingMadeUp(restored: set<Kind>, settings: Settings, es: seq<Event>, kind: Kind)
    ensures var on := ServedOn(Run(Start(restored), settings, es).services, settings, kind);
            || on == (kind in settings.restoredOn)
            || WriteStored(kind, on) in es
            || exists i :: 0 <= i < |es| && es[i].Update? && SourceOf(kind, On).Some?
                 && SourceOf(kind, On).value !in UntrustedScopes(es[i].snapshot.data)
                 && Reported(kind, On, es[i].snapshot.data) == Truth(on)
  {
    RunKeepsAccounts(restored, settings, es);
    var services := Run(Start(restored), settings, es).services;
    ServedIsAccounted(services, settings, es, kind);
    var on := ServedOn(services, settings, kind);
    if Witnessed(es, kind, On, Truth(on)) {
      var i :| 0 <= i < |es| && Supplies(es[i], kind, On, Truth(on));
      FactsAreTheFields(kind, On, es[i].snapshot.data, es[i].snapshot.metadata);
    }
  }

  /** The single step behind it: a clearing push puts on the switch what is reported, or what it serves once the rows are republished. */
  lemma ClearingPushesReportedOrServed(s: Accessory, settings: Settings, kind: Kind, live: bool, pending: set<Kind>)
    requires kind in s.services && AlwaysPublishes(kind)
    ensures var e := RefusalClears(kind, live, pending);
            var on := ServedOn(Step(s, settings, e).services, settings, kind);
            || (live && ReportedControl(s, settings, kind) == Some(on))
            || ((live ==> ReportedControl(s, settings, kind).None?) && on == ServedOn(s.services, settings, kind))
  {
    var passed := if live then ControlsRepublished(s, settings, pending) else s.services;
    if live && ReportedControl(s, settings, kind).None? && On in Project(kind, InputOf(s, settings, s.decoded, pending)) {
      OnlyControlsServeOn(kind, InputOf(s, settings, s.decoded, pending));
      assert false;
    }
    assert kind in passed && On in Step(s, settings, RefusalClears(kind, live, pending)).services[kind].pushed;
  }

  // ---- What an update adds ----

  lemma ViolationsAreTheUntrustedScopes(data: Payload, metadata: Payload)
    ensures ViolatedScopes(Validate(data, metadata)) == UntrustedScopes(data)
  {
    forall scope: Scope ensures scope in ViolatedScopes(Validate(data, metadata)) <==> scope in UntrustedScopes(data) {
      ScopeIsNamed(data, metadata, scope);
    }
  }

  lemma RefreshesAddNothing(services: Services, input: Input, suppressed: set<Kind>, failing: map<Kind, set<Characteristic>>)
    ensures AllRefreshed(services, input, suppressed, failing).Keys <= services.Keys
    ensures ControlsRefreshed(services, input).Keys == services.Keys
  {
  }

  lemma OnlyUpdatesAdd(s: Accessory, settings: Settings, e: Event)
    requires !e.Update?
    ensures Step(s, settings, e).services.Keys <= s.services.Keys
  {
    var input := InputFor(s, settings, e);
    RefreshesAddNothing(s.services, input, settings.suppressed, FailingOf(e));
    match e
    case UpdateUnresolved(_, _, _, failing) => assert Step(s, settings, e).services == AllRefreshed(s.services, input, settings.suppressed, failing);
    case MarkMonitoring(trust, _, failing) =>
      if trust != s.monitoring || s.refreshPending {
        assert Step(s, settings, e).services == AllRefreshed(s.services, input, settings.suppressed, failing);
      }
    case _ => StepWritesOnAlone(s, settings, e);
  }

  lemma AddedServiceIsComplete(s: Accessory, settings: Settings, e: Event, kind: Kind)
    requires e.Update? && kind !in s.services && kind in Step(s, settings, e).services && !AlwaysPublishes(kind)
    ensures Required(kind) <= Step(s, settings, e).services[kind].pushed.Keys
  {
    var after, input := Step(s, settings, e), InputFor(s, settings, e);
    assert after.services == AllPublished(s.services, input, settings.suppressed);
    assert after.services[kind] == Pushed(Fresh, kind, input);
    ViolationsAreTheUntrustedScopes(e.snapshot.data, e.snapshot.metadata);
    DecodeNeverThrows(e.snapshot.data, e.snapshot.metadata);
    ProjectionsAreComplete(kind, input, e.snapshot.data, e.snapshot.metadata, after.device.controllerLinkLost, s.monitoring);
  }

  /**
   * Whenever a pass adds a service other than the two control switches, that same
   * pass pushes every characteristic its class requires.
   */
  lemma AddedServicesAreComplete(s: Accessory, settings: Settings, e: Event, kind: Kind)
    ensures var after := Step(s, settings, e).services;
            kind !in s.services && kind in after ==> e.Update? && (AlwaysPublishes(kind) || Required(kind) <= after[kind].pushed.Keys)
  {
    if !e.Update? {
      OnlyUpdatesAdd(s, settings, e);
    } else if kind !in s.services && kind in Step(s, settings, e).services && !AlwaysPublishes(kind) {
      AddedServiceIsComplete(s, settings, e, kind);
    }
  }

  // ---- The offline adapter ----

  /** What the polls of a run said about the vendor's connection to the device. */
  function Polls(es: seq<Event>): seq<bool> {
    if es == [] then []
    else
      var before, e := Polls(es[..|es| - 1]), es[|es| - 1];
      if (e.Update? || e.UpdateUnresolved?) && e.source.Poll? then before + [e.snapshot.connected] else before
  }

  lemma StepCountsThePoll(s: Accessory, settings: Settings, e: Event)
    ensures Step(s, settings, e).offlineCount ==
              if (e.Update? || e.UpdateUnresolved?) && e.source.Poll? then NextOfflineCount(s.offlineCount, e.snapshot.connected, settings.threshold)
              else s.offlineCount
  {
  }

  lemma {:induction false} CountFollowsThePolls(restored: set<Kind>, settings: Settings, es: seq<Event>)
    ensures Run(Start(restored), settings, es).offlineCount == OfflineCount(Polls(es), settings.threshold)
    decreases |es|
  {
    if es != [] {
      var before, e := es[..|es| - 1], es[|es| - 1];
      CountFollowsThePolls(restored, settings, before);
      StepCountsThePoll(Run(Start(restored), settings, before), settings, e);
      if (e.Update? || e.UpdateUnresolved?) && e.source.Poll? {
        assert Polls(es)[..|Polls(es)| - 1] == Polls(before);
      }
    }
  }

  /** The device is confirmed offline exactly when the last `threshold` polls all found it disconnected. */
  lemma ConfirmedOfflineExactlyWhen(restored: set<Kind>, settings: Settings, es: seq<Event>)
    requires settings.threshold >= 1
    ensures Run(Start(restored), settings, es).offlineCount >= settings.threshold <==> LastDisconnected(Polls(es), settings.threshold)
  {
    CountFollowsThePolls(restored, settings, es);
    OfflineCountIsTheTrailingRun(Polls(es), settings.threshold);
  }

  predicate ShowsOffline(s: Accessory, raised: bool) {
    && OfflineAlert in s.services
    && ContactSensorState in s.services[OfflineAlert].pushed
    && s.services[OfflineAlert].pushed[ContactSensorState] == Alarm(raised)
  }

  lemma UpdatesProjectOffline(s: Accessory, settings: Settings, e: Event)
    requires e.Update? && Connectivity !in UntrustedScopes(e.snapshot.data)
    ensures ContactSensorState in Project(OfflineAlert, InputFor(s, settings, e))
    ensures Project(OfflineAlert, InputFor(s, settings, e))[ContactSensorState] == Alarm(InputFor(s, settings, e).offlineConfirmed)
  {
    var input := InputFor(s, settings, e);
    ViolationsAreTheUntrustedScopes(e.snapshot.data, e.snapshot.metadata);
    WithheldExactlyWhen(OfflineAlert, Connectivity, DistrustOf(e.snapshot), s.monitoring);
    assert Candidate(OfflineAlert, ContactSensorState, input) == Some(Alarm(input.offlineConfirmed));
  }

  lemma PublishedRowsAreThere(services: Services, input: Input, suppressed: set<Kind>, kind: Kind, c: Characteristic)
    requires kind !in suppressed && c in Project(kind, input)
    ensures var all := AllPublished(services, input, suppressed);
            kind in all && c in all[kind].pushed && all[kind].pushed[c] == Project(kind, input)[c]
  {
  }

  /** What the adapter shows after an update, as long as the payload's own `offline` field validates. */
  lemma OfflineAdapterShowsTheCount(s: Accessory, settings: Settings, e: Event)
    requires e.Update? && OfflineAlert !in settings.suppressed
    requires Connectivity !in UntrustedScopes(e.snapshot.data)
    ensures ShowsOffline(Step(s, settings, e), Step(s, settings, e).offlineCount >= settings.threshold)
  {
    UpdatesProjectOffline(s, settings, e);
    PublishedRowsAreThere(s.services, InputFor(s, settings, e), settings.suppressed, OfflineAlert, ContactSensorState);
    assert Step(s, settings, e).services == AllPublished(s.services, InputFor(s, settings, e), settings.suppressed);
  }

  /** A service that is not suppressed is still there, with every value it carried or a newer one. */
  ghost predicate ValuesStay(before: Services, after: Services, kind: Kind) {
    kind in before ==> kind in after && before[kind].pushed.Keys <= after[kind].pushed.Keys
  }

  lemma PassesKeepValues(
    services: Services, input: Input, suppressed: set<Kind>, failing: map<Kind, set<Characteristic>>, kind: Kind)
    requires kind !in suppressed
    ensures ValuesStay(services, AllPublished(services, input, suppressed), kind)
    ensures ValuesStay(services, AllRefreshed(services, input, suppressed, failing), kind)
    ensures ValuesStay(services, ControlsRefreshed(services, input), kind)
  {
  }

  lemma PushedValuesStay(s: Accessory, settings: Settings, e: Event, kind: Kind)
    requires kind !in settings.suppressed
    ensures ValuesStay(s.services, Step(s, settings, e).services, kind)
  {
    StepIsAPass(s, settings, e);
    PassesKeepValues(s.services, InputFor(s, settings, e), settings.suppressed, FailingOf(e), kind);
    StepWritesOnAlone(s, settings, e);
  }

  lemma NothingIsProjectedInDoubt(s: Accessory, settings: Settings, e: Event)
    requires Connectivity in Step(s, settings, e).device.violated && ReasonsAreCurrent(s)
    ensures Project(OfflineAlert, InputFor(s, settings, e)) == map[]
  {
    StepKeepsReasonsCurrent(s, settings, e);
    var after := Step(s, settings, e);
    WithheldExactlyWhen(OfflineAlert, Connectivity, after.device, after.monitoring);
  }

  /** While that field does not validate, no event moves what the adapter shows. */
  lemma OfflineAdapterFreezes(s: Accessory, settings: Settings, e: Event, raised: bool)
    requires OfflineAlert !in settings.suppressed
    requires Connectivity in Step(s, settings, e).device.violated && ReasonsAreCurrent(s)
    requires ShowsOffline(s, raised)
    ensures ShowsOffline(Step(s, settings, e), raised)
  {
    PushedValuesStay(s, settings, e, OfflineAlert);
    UnreadableStepsKeepTheReading(s, settings, e);
  }

  /** While the `offline` field in force validates, the adapter shows whether the outage is confirmed. */
  ghost predicate OfflineIsCurrent(s: Accessory, settings: Settings) {
    && OfflineAlert in s.services
    && ContactSensorState in s.services[OfflineAlert].pushed
    && Connectivity !in s.device.violated
    ==> s.services[OfflineAlert].pushed[ContactSensorState] == Alarm(s.offlineCount >= settings.threshold)
  }

  lemma OfflineIsProjected(s: Accessory, settings: Settings, e: Event)
    requires ReasonsAreCurrent(s) && Connectivity !in Step(s, settings, e).device.violated
    ensures var input := InputFor(s, settings, e);
            && ContactSensorState in Project(OfflineAlert, input)
            && Project(OfflineAlert, input)[ContactSensorState] == Alarm(input.offlineConfirmed)
  {
    StepKeepsReasonsCurrent(s, settings, e);
    var after, input := Step(s, settings, e), InputFor(s, settings, e);
    WithheldExactlyWhen(OfflineAlert, Connectivity, after.device, after.monitoring);
    assert Candidate(OfflineAlert, ContactSensorState, input) == Some(Alarm(input.offlineConfirmed));
  }

  lemma CompletedPassesPush(services: Services, input: Input, suppressed: set<Kind>, failing: map<Kind, set<Characteristic>>, kind: Kind)
    ensures var all := AllPublished(services, input, suppressed);
            kind in all ==> Project(kind, input).Items <= all[kind].pushed.Items
    ensures var all := AllRefreshed(services, input, suppressed, failing);
            kind in all && kind !in failing ==> Project(kind, input).Items <= all[kind].pushed.Items
  {
  }

  lemma StepKeepsOfflineCurrent(s: Accessory, settings: Settings, e: Event)
    requires ReasonsAreCurrent(s) && (OfflineIsCurrent(s, settings) || s.refreshPending)
    ensures OfflineIsCurrent(Step(s, settings, e), settings) || Step(s, settings, e).refreshPending
  {
    if Completes(s, e) && Connectivity !in Step(s, settings, e).device.violated {
      OfflineIsProjected(s, settings, e);
      StepIsAPass(s, settings, e);
      CompletedPassesPush(s.services, InputFor(s, settings, e), settings.suppressed, FailingOf(e), OfflineAlert);
      assert (ContactSensorState, Alarm(InputFor(s, settings, e).offlineConfirmed)) in Project(OfflineAlert, InputFor(s, settings, e)).Items;
    }
  }

  /** What a pass that reaches its row puts on the adapter. */
  lemma ReachedPassShowsOffline(services: Services, after: Services, input: Input, suppressed: set<Kind>, failing: map<Kind, set<Characteristic>>)
    requires after == AllPublished(services, input, suppressed) || after == AllRefreshed(services, input, suppressed, failing)
    requires OfflineAlert !in failing && ContactSensorState in Project(OfflineAlert, input)
    ensures OfflineAlert in after ==>
              && ContactSensorState in after[OfflineAlert].pushed
              && after[OfflineAlert].pushed[ContactSensorState] == Project(OfflineAlert, input)[ContactSensorState]
  {
    CompletedPassesPush(services, input, suppressed, failing, OfflineAlert);
    assert (ContactSensorState, Project(OfflineAlert, input)[ContactSensorState]) in Project(OfflineAlert, input).Items;
  }

  lemma ReachedUpdateKeepsOfflineCurrent(s: Accessory, settings: Settings, e: Event)
    requires e.Update? && ReasonsAreCurrent(s)
    ensures OfflineIsCurrent(Step(s, settings, e), settings)
  {
    var after, input := Step(s, settings, e), InputFor(s, settings, e);
    if Connectivity !in after.device.violated {
      OfflineIsProjected(s, settings, e);
      assert after.services == AllPublished(s.services, input, settings.suppressed);
      ReachedPassShowsOffline(s.services, after.services, input, settings.suppressed, map[]);
    }
  }

  lemma ReachedRefreshKeepsOfflineCurrent(s: Accessory, settings: Settings, e: Event)
    requires ReasonsAreCurrent(s) && OfflineAlert !in FailingOf(e)
    requires e.UpdateUnresolved? || (e.MarkMonitoring? && (e.trust != s.monitoring || s.refreshPending))
    ensures OfflineIsCurrent(Step(s, settings, e), settings)
  {
    var after, input := Step(s, settings, e), InputFor(s, settings, e);
    if Connectivity !in after.device.violated {
      OfflineIsProjected(s, settings, e);
      assert after.services == AllRefreshed(s.services, input, settings.suppressed, e.failing);
      ReachedPassShowsOffline(s.services, after.services, input, settings.suppressed, e.failing);
    }
  }

  /** A failing row elsewhere does not matter: what the adapter shows needs its own row alone. */
  lemma ReachedStepKeepsOfflineCurrent(s: Accessory, settings: Settings, e: Event)
    requires ReasonsAreCurrent(s) && OfflineIsCurrent(s, settings) && OfflineAlert !in FailingOf(e)
    ensures OfflineIsCurrent(Step(s, settings, e), settings)
  {
    if e.Update? {
      ReachedUpdateKeepsOfflineCurrent(s, settings, e);
    } else if e.UpdateUnresolved? || (e.MarkMonitoring? && (e.trust != s.monitoring || s.refreshPending)) {
      ReachedRefreshKeepsOfflineCurrent(s, settings, e);
    } else if !e.MarkMonitoring? {
      OffPassesLeaveOffline(s, settings, e);
    }
  }

  lemma OffPassesLeaveOffline(s: Accessory, settings: Settings, e: Event)
    requires !(e.Update? || e.UpdateUnresolved? || e.MarkMonitoring?)
    ensures OfflineAlert in Step(s, settings, e).services <==> OfflineAlert in s.services
    ensures OfflineAlert in s.services ==> Step(s, settings, e).services[OfflineAlert] == s.services[OfflineAlert]
  {
  }

  lemma {:induction false} RunKeepsOfflineCurrent(restored: set<Kind>, settings: Settings, es: seq<Event>)
    ensures var end := Run(Start(restored), settings, es);
            ReasonsAreCurrent(end) && (OfflineIsCurrent(end, settings) || end.refreshPending)
    decreases |es|
  {
    if es == [] {
      StartIsCurrent(restored);
    } else {
      var before, e := es[..|es| - 1], es[|es| - 1];
      RunKeepsOfflineCurrent(restored, settings, before);
      StepKeepsReasonsCurrent(Run(Start(restored), settings, before), settings, e);
      StepKeepsOfflineCurrent(Run(Start(restored), settings, before), settings, e);
    }
  }

  /**
   * Over every run with no refresh owed, as long as the latest payload's own `offline`
   * field validates, the offline adapter is active exactly when the last `threshold`
   * poll snapshots were all disconnected.
   */
  lemma OfflineAdapterIsExact(restored: set<Kind>, settings: Settings, es: seq<Event>)
    requires settings.threshold >= 1
    ensures var end := Run(Start(restored), settings, es);
            || end.refreshPending
            || Connectivity in end.device.violated
            || (OfflineAlert in end.services && ContactSensorState in end.services[OfflineAlert].pushed ==>
                  end.services[OfflineAlert].pushed[ContactSensorState] == Alarm(LastDisconnected(Polls(es), settings.threshold)))
  {
    RunKeepsOfflineCurrent(restored, settings, es);
    ConfirmedOfflineExactlyWhen(restored, settings, es);
  }

  ghost predicate ReachesOffline(es: seq<Event>) {
    forall i :: 0 <= i < |es| ==> OfflineAlert !in FailingOf(es[i])
  }

  lemma {:induction false} ReachedRunKeepsOfflineCurrent(restored: set<Kind>, settings: Settings, es: seq<Event>)
    requires ReachesOffline(es)
    ensures ReasonsAreCurrent(Run(Start(restored), settings, es)) && OfflineIsCurrent(Run(Start(restored), settings, es), settings)
    decreases |es|
  {
    if es == [] {
      StartIsCurrent(restored);
    } else {
      var before, e := es[..|es| - 1], es[|es| - 1];
      ReachedRunKeepsOfflineCurrent(restored, settings, before);
      StepKeepsReasonsCurrent(Run(Start(restored), settings, before), settings, e);
      ReachedStepKeepsOfflineCurrent(Run(Start(restored), settings, before), settings, e);
    }
  }

  /** How many events of the run it takes to reach the last point at which the `offline` field in force validated. */
  function LastReadable(restored: set<Kind>, settings: Settings, es: seq<Event>): (n: nat)
    ensures n <= |es|
  {
    if es == [] then 0
    else if Connectivity !in Run(Start(restored), settings, es).device.violated then |es|
    else LastReadable(restored, settings, es[..|es| - 1])
  }

  lemma UnreadableStepsKeepTheReading(s: Accessory, settings: Settings, e: Event)
    requires ReasonsAreCurrent(s) && Connectivity in Step(s, settings, e).device.violated
    ensures var after := Step(s, settings, e).services;
            OfflineAlert in after && ContactSensorState in after[OfflineAlert].pushed ==>
              && OfflineAlert in s.services && ContactSensorState in s.services[OfflineAlert].pushed
              && after[OfflineAlert].pushed[ContactSensorState] == s.services[OfflineAlert].pushed[ContactSensorState]
  {
    NothingIsProjectedInDoubt(s, settings, e);
    StepsPushProjections(s, settings, e);
    OldValuesAreKept(s.services, Step(s, settings, e).services, InputFor(s, settings, e), OfflineAlert, ContactSensorState);
  }

  lemma OldValuesAreKept(before: Services, after: Services, input: Input, kind: Kind, c: Characteristic)
    requires OldOrProjected(before, after, input) && Project(kind, input) == map[] && !c.On?
    ensures kind in after && c in after[kind].pushed ==>
              kind in before && c in before[kind].pushed && after[kind].pushed[c] == before[kind].pushed[c]
  {
  }

  /**
   * Over every run that reaches its row, the offline adapter shows the verdict of the
   * last point at which the payload's own `offline` field validated: it is right
   * exactly when that verdict still stands.
   */
  lemma {:induction false} OfflineAdapterShowsTheLastReadable(restored: set<Kind>, settings: Settings, es: seq<Event>)
    requires settings.threshold >= 1 && ReachesOffline(es)
    ensures var end, readable := Run(Start(restored), settings, es), es[..LastReadable(restored, settings, es)];
            OfflineAlert in end.services && ContactSensorState in end.services[OfflineAlert].pushed ==>
              end.services[OfflineAlert].pushed[ContactSensorState] == Alarm(LastDisconnected(Polls(readable), settings.threshold))
    decreases |es|
  {
    if es != [] {
      var before, e := es[..|es| - 1], es[|es| - 1];
      if Connectivity !in Run(Start(restored), settings, es).device.violated {
        ReachedRunKeepsOfflineCurrent(restored, settings, es);
        ConfirmedOfflineExactlyWhen(restored, settings, es);
        assert es[..|es|] == es;
      } else {
        ReachedRunKeepsOfflineCurrent(restored, settings, before);
        UnreadableStepsKeepTheReading(Run(Start(restored), settings, before), settings, e);
        OfflineAdapterShowsTheLastReadable(restored, settings, before);
        var n := LastReadable(restored, settings, before);
        assert es[..n] == before[..n];
      }
    }
  }

  const READABLE := Snapshot(map[Offline := Telemetry.Flag(false)], map[], true, 0)
  const UNREADABLE := Snapshot(map[], map[], false, 1)

  lemma ReadableAndUnreadable()
    ensures Connectivity !in UntrustedScopes(READABLE.data)
    ensures Connectivity in ViolatedScopes(Validate(UNREADABLE.data, UNREADABLE.metadata))
  {
    forall v ensures v in Violations(TELEMETRY_CHECKS, READABLE.data) ==> v.scope != Safety(Connectivity) {
      ViolationsAreFaults(TELEMETRY_CHECKS, READABLE.data, v);
    }
    var v := Violation(Offline, Missing, Safety(Connectivity));
    ViolationsAreFaults(TELEMETRY_CHECKS, UNREADABLE.data, v);
    assert Finds(TELEMETRY_CHECKS, UNREADABLE.data, v, 17);
    assert v in Validate(UNREADABLE.data, UNREADABLE.metadata);
  }

  lemma RunOfTwo(s: Accessory, settings: Settings, first: Event, second: Event)
    ensures Run(s, settings, [first, second]) == Step(Step(s, settings, first), settings, second)
  {
    assert [first, second][..1] == [first] && [first][..0] == [];
    assert Run(s, settings, [first]) == Step(s, settings, first);
  }

  lemma StartIsCurrent(restored: set<Kind>)
    ensures ReasonsAreCurrent(Start(restored))
  {
    assert ReasonsNow(DeviceDistrust({}, false), FIRST_TRUST) == map[];
  }

  /**
   * So the adapter is not always active when the confirmation run is reached: a
   * payload without a readable `offline` field hides an outage the polls have confirmed.
   */
  lemma AnUnreadableFieldHidesAnOutage(records: PumpRecords.Record)
    ensures var end := Run(Start({}), Settings(1, {}, {}), [Update(READABLE, Poll, records, {}), Update(UNREADABLE, Poll, records, {})]);
            end.offlineCount >= 1 && ShowsOffline(end, false)
  {
    var settings := Settings(1, {}, {});
    var first, second := Update(READABLE, Poll, records, {}), Update(UNREADABLE, Poll, records, {});
    RunOfTwo(Start({}), settings, first, second);
    ReadableAndUnreadable();
    StartIsCurrent({});
    StepKeepsReasonsCurrent(Start({}), settings, first);
    OfflineAdapterShowsTheCount(Start({}), settings, first);
    OfflineAdapterFreezes(Step(Start({}), settings, first), settings, second, false);
  }

  // ---- The accessory ----

  class BasementGuardianAccessory {
    const settings: Settings
    var monitoring: MonitoringTrust
    var device: DeviceDistrust
    var untrusted: Reasons
    var lastTrustedAt: map<Scope, int>
    var offlineCount: nat
    var decoded: Option<DomainState>
    var records: Option<PumpRecords.Record>
    var refreshPending: bool
    var services: Services
    var before: map<Kind, bool>

    constructor (settings: Settings, restored: set<Kind>)
      ensures this.settings == settings
      ensures Held() == Start(restored)
    {
      this.settings := settings;
      monitoring, device, untrusted, lastTrustedAt := FIRST_TRUST, DeviceDistrust({}, false), map[], map[];
      offlineCount, decoded, records, refreshPending := 0, None, None, false;
      services, before := map kind | kind in restored :: Fresh, map[];
    }

    function Held(): Accessory
      reads this
    {
      Accessory(monitoring, device, untrusted, lastTrustedAt, offlineCount, decoded, records, refreshPending, services, before)
    }

    /** One row of the publishing pass: a service is added only for a row that has something to publish. */
    method PublishRow(row: Kind, input: Input)
      modifies `services
      ensures services == Settled(old(services), row, RowPublished(At(old(services), row), row, input, settings.suppressed))
    {
      if row in settings.suppressed {
        services := services - {row};
        return;
      }
      var projected := Project(row, input);
      if row !in services && projected == map[] && !AlwaysPublishes(row) {
        assert services == services - {row};
        return;
      }
      var service := if row in services then services[row] else Fresh;
      services := services[row := Service(service.pushed + projected, Some(IsFullyTrusted(row, input.untrusted)))];
    }

    /** The publishing pass, which may add services. */
    method PublishRows(input: Input)
      modifies `services
      ensures services == AllPublished(old(services), input, settings.suppressed)
    {
      ghost var was, all := services, AllPublished(services, input, settings.suppressed);
      PassBegins(was, all);
      for i := 0 to |CATALOGUE|
        invariant services == PartWay(was, all, i)
      {
        PassGoesOn(was, all, i);
        assert At(all, CATALOGUE[i]) == RowPublished(At(was, CATALOGUE[i]), CATALOGUE[i], input, settings.suppressed);
        PublishRow(CATALOGUE[i], input);
      }
      PassEnds(was, all);
    }

    /** One row of the refreshing pass; what it throws is caught and kept. */
    method RefreshRow(row: Kind, input: Input, failing: map<Kind, set<Characteristic>>) returns (failed: bool)
      modifies `services
      ensures failed <==> row in failing && row in old(services)
      ensures services == Settled(old(services), row, RowRefreshed(At(old(services), row), row, input, settings.suppressed, failing))
    {
      if row !in services {
        return false;
      }
      if row in failing {
        if row !in settings.suppressed {
          services := services[row := PushedInPart(services[row], row, input, failing[row])];
        }
        return true;
      }
      if row in settings.suppressed {
        services := services - {row};
      } else {
        services := services[row := Pushed(services[row], row, input)];
      }
      return false;
    }

    /** Refreshes every service already published, and adds none; a row that throws does not stop the next. */
    method RepublishPublishedRows(input: Input, failing: map<Kind, set<Characteristic>>)
      modifies `services, `refreshPending
      ensures services == AllRefreshed(old(services), input, settings.suppressed, failing)
      ensures refreshPending <==> exists kind :: kind in failing && kind in old(services)
    {
      ghost var was, all := services, AllRefreshed(services, input, settings.suppressed, failing);
      refreshPending := true;
      var failures: seq<Kind> := [];
      PassBegins(was, all);
      for i := 0 to |CATALOGUE|
        invariant services == PartWay(was, all, i) && refreshPending
        invariant forall kind :: kind in failures ==> kind in failing && kind in was
        invariant forall kind :: kind in failing && kind in was && Position(kind) < i ==> kind in failures
      {
        PassGoesOn(was, all, i);
        var row := CATALOGUE[i];
        forall kind: Kind ensures Position(kind) < i + 1 ==> Position(kind) < i || kind == row {
          RowsAreListedOnce(kind, i);
        }
        assert At(all, row) == RowRefreshed(At(was, row), row, input, settings.suppressed, failing);
        var failed := RefreshRow(row, input, failing);
        if failed {
          failures := failures + [row];
        }
      }
      PassEnds(was, all);
      forall kind: Kind ensures Position(kind) < |CATALOGUE| {
        RowsAreListedOnce(kind, 0);
      }
      if failures == [] {
        refreshPending := false;
      } else {
        assert failures[0] in failing && failures[0] in was;
      }
    }

    method RepublishControlRows(pending: set<Kind>)
      modifies `services
      ensures services == ControlsRepublished(old(Held()), settings, pending)
    {
      if monitoring.credentialsRejected {
        return;
      }
      var input := InputOf(Held(), settings, decoded, pending);
      ghost var was, all := services, ControlsRefreshed(services, input);
      PassBegins(was, all);
      for i := 0 to |CATALOGUE|
        invariant services == PartWay(was, all, i)
      {
        PassGoesOn(was, all, i);
        var row := CATALOGUE[i];
        assert At(services, row) == At(was, row);
        if AlwaysPublishes(row) && row in services {
          services := services[row := Pushed(services[row], row, input)];
        }
      }
      PassEnds(was, all);
    }

    /** What a push of the binder puts on a switch; HAP then serves it. */
    method PublishOn(kind: Kind, on: bool)
      modifies `services
      ensures services == WithOn(old(services), kind, on)
    {
      if kind in services && AlwaysPublishes(kind) {
        var service := services[kind];
        services := services[kind := Service(service.pushed[On := Truth(on)], service.active)];
      }
    }

    /** The clearing push behind a refused press. */
    method ClearRefusal(kind: Kind, live: bool, pending: set<Kind>)
      modifies `services
      ensures Held() == Step(old(Held()), settings, RefusalClears(kind, live, pending))
    {
      var reported := None;
      if live {
        reported := ReportedControl(Held(), settings, kind);
        RepublishControlRows(pending);
      }
      PublishOn(kind, OrElse(reported, ServedOn(services, settings, kind)));
    }

    /** A request's window closes with no confirming report. */
    method Expire(kind: Kind, pending: set<Kind>)
      modifies `services, `before
      ensures Held() == Step(old(Held()), settings, WindowCloses(kind, pending))
    {
      if kind !in before {
        return;
      }
      var previous := before[kind];
      var reported := ReportedControl(Held(), settings, kind);
      before := before - {kind};
      RepublishControlRows(pending);
      PublishOn(kind, OrElse(reported, previous));
    }

    method StampScopes(scopes: set<Scope>, receivedAt: int)
      modifies `lastTrustedAt
      ensures lastTrustedAt == old(lastTrustedAt) + map scope | scope in scopes :: receivedAt
    {
      var todo := scopes;
      while todo != {}
        invariant todo <= scopes
        invariant lastTrustedAt == old(lastTrustedAt) + map scope | scope in scopes - todo :: receivedAt
        decreases todo
      {
        var scope :| scope in todo;
        todo := todo - {scope};
        lastTrustedAt := lastTrustedAt[scope := receivedAt];
      }
    }

    method RecordTrustedScopes(receivedAt: int, source: Source)
      modifies `lastTrustedAt
      ensures lastTrustedAt == TrustedAt(old(lastTrustedAt), device, monitoring, receivedAt, source)
    {
      var vouched := set scope | scope in EVERY_SCOPE && Vouches(scope, device, monitoring, source);
      StampScopes(vouched, receivedAt);
    }

    method ObserveTrust(distrust: DeviceDistrust, snapshot: Snapshot, source: Source)
      modifies `device, `untrusted, `lastTrustedAt, `offlineCount
      ensures Held() == Observed(old(Held()), settings, distrust, snapshot, source)
    {
      device := distrust;
      RecordTrustedScopes(snapshot.receivedAt, source);
      untrusted := DistrustReasonsOf(distrust, MonitoringDegradedScopes(monitoring));
      if source.Poll? {
        offlineCount := NextOfflineCount(offlineCount, snapshot.connected, settings.threshold);
      }
    }

    method UpdateFrom(snapshot: Snapshot, source: Source, observed: PumpRecords.Record, pending: set<Kind>)
      modifies this
      ensures Held() == Updated(old(Held()), settings, snapshot, source, observed, pending)
    {
      var state := Decoded(snapshot);
      var violations := ViolationsOf(TELEMETRY_CHECKS, snapshot.data);
      var invalid := ViolationsOf(METADATA_CHECKS, snapshot.metadata);
      var distrust := DeviceDistrust(ViolatedScopes(violations + invalid), IsControllerLinkLost(state));
      assert distrust == DistrustOf(snapshot);
      ObserveTrust(distrust, snapshot, source);
      decoded := Some(state);
      records := Some(observed);
      PublishRows(InputOf(Held(), settings, decoded, pending));
    }

    method UpdateUnresolvedFrom(snapshot: Snapshot, source: Source, pending: set<Kind>, failing: map<Kind, set<Characteristic>>)
      modifies this
      ensures Held() == Step(old(Held()), settings, UpdateUnresolved(snapshot, source, pending, failing))
    {
      ObserveTrust(UNRESOLVED, snapshot, source);
      RepublishPublishedRows(InputOf(Held(), settings, None, pending), failing);
    }

    method MarkMonitoringTrust(trust: MonitoringTrust, pending: set<Kind>, failing: map<Kind, set<Characteristic>>)
      modifies this
      ensures Held() == Marked(old(Held()), settings, trust, pending, failing)
    {
      var repeated := trust == monitoring;
      monitoring := trust;
      if repeated && !refreshPending {
        return;
      }
      untrusted := DistrustReasonsOf(device, MonitoringDegradedScopes(monitoring));
      RepublishPublishedRows(InputOf(Held(), settings, decoded, pending), failing);
    }
  }
}
