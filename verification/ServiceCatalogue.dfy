/**
 * What can be vouched for: the distrust reasons of one accessory
 * (`src/accessories/basementGuardian.ts`).
 */
module Trust {
  import opened Wrappers
  import opened Gemini

  /** The reasons in force today; the program also names a `stale` reason that nothing assigns. */
  datatype Distrust = Invalid | Unreachable | ControllerLinkLost

  /** What the account runtime last said about its own ability to observe. */
  datatype MonitoringTrust = MonitoringTrust(
    restDegraded: bool,
    shadowSilent: bool,
    commandTransportReady: bool,
    credentialsRejected: bool)

  /** What the accessory's own payload last said. */
  datatype DeviceDistrust = DeviceDistrust(violated: set<Scope>, controllerLinkLost: bool)

  type Reasons = map<Scope, Distrust>

  const EVERY_SCOPE: set<Scope> := {Water, Pump, Power, Battery, Fault, Connectivity, SelfTest, AlarmMute}
  const NON_CONNECTIVITY_SCOPES: set<Scope> := EVERY_SCOPE - {Connectivity}

  lemma ScopesAreListed(scope: Scope)
    ensures scope in EVERY_SCOPE
  {
  }

  function MonitoringDegradedScopes(trust: MonitoringTrust): set<Scope> {
    if trust.credentialsRejected then EVERY_SCOPE
    else if trust.shadowSilent then if trust.restDegraded then EVERY_SCOPE else NON_CONNECTIVITY_SCOPES
    else if trust.restDegraded then {Connectivity}
    else {}
  }

  /** A scope cannot be observed: the credentials were refused, or the transport that carries it is down. */
  predicate CannotBeObserved(scope: Scope, trust: MonitoringTrust) {
    trust.credentialsRejected || if scope.Connectivity? then trust.restDegraded else trust.shadowSilent
  }

  lemma DegradedExactlyWhenUnobservable(scope: Scope, trust: MonitoringTrust)
    ensures scope in MonitoringDegradedScopes(trust) <==> CannotBeObserved(scope, trust)
  {
    ScopesAreListed(scope);
  }

  /** Each scope's one reason: its own violation first, then the lost transports, then the lost controller link. */
  function ReasonOf(scope: Scope, device: DeviceDistrust, degraded: set<Scope>): Option<Distrust> {
    if scope in device.violated then Some(Invalid)
    else if scope in degraded then Some(Unreachable)
    else if device.controllerLinkLost && !scope.Connectivity? then Some(ControllerLinkLost)
    else None
  }

  function ReasonsOf(device: DeviceDistrust, degraded: set<Scope>): Reasons {
    map scope | scope in EVERY_SCOPE && ReasonOf(scope, device, degraded).Some? :: ReasonOf(scope, device, degraded).value
  }

  /** Fills the scopes the layers above left empty. */
  method Filled(reasons: Reasons, scopes: set<Scope>, reason: Distrust) returns (filled: Reasons)
    ensures filled == reasons + map scope | scope in scopes - reasons.Keys :: reason
  {
    filled := reasons;
    var todo := scopes;
    while todo != {}
      invariant todo <= scopes
      invariant filled == reasons + map scope | scope in scopes - todo - reasons.Keys :: reason
      decreases todo
    {
      var scope :| scope in todo;
      todo := todo - {scope};
      if scope !in filled {
        filled := filled[scope := reason];
      }
    }
  }

  /** The layering and the per-scope precedence are the same map. */
  method DistrustReasonsOf(device: DeviceDistrust, degraded: set<Scope>) returns (reasons: Reasons)
    ensures reasons == ReasonsOf(device, degraded)
  {
    reasons := Filled(map[], device.violated, Invalid);
    reasons := Filled(reasons, degraded, Unreachable);
    if device.controllerLinkLost {
      reasons := Filled(reasons, NON_CONNECTIVITY_SCOPES, ControllerLinkLost);
    }
    forall scope: Scope ensures scope in EVERY_SCOPE {
      ScopesAreListed(scope);
    }
  }

  /** The run of consecutive disconnected polls, clamped at the threshold. */
  function NextOfflineCount(previous: nat, connected: bool, threshold: nat): nat {
    if connected then 0 else if previous + 1 < threshold then previous + 1 else threshold
  }

  /** How the trailing run of disconnected polls ends up counted. */
  function OfflineCount(polls: seq<bool>, threshold: nat): nat {
    if polls == [] then 0
    else NextOfflineCount(OfflineCount(polls[..|polls| - 1], threshold), polls[|polls| - 1], threshold)
  }

  ghost predicate LastDisconnected(polls: seq<bool>, count: nat) {
    count <= |polls| && forall i :: |polls| - count <= i < |polls| ==> !polls[i]
  }

  /** The count is the length of the trailing run, up to the threshold. */
  lemma {:induction false} OfflineCountIsTheTrailingRun(polls: seq<bool>, threshold: nat)
    requires threshold >= 1
    ensures OfflineCount(polls, threshold) <= threshold
    ensures forall n: nat :: n <= threshold ==> (OfflineCount(polls, threshold) >= n <==> LastDisconnected(polls, n))
  {
    if polls != [] {
      var before := polls[..|polls| - 1];
      OfflineCountIsTheTrailingRun(before, threshold);
      forall n: nat | 1 <= n <= threshold
        ensures LastDisconnected(polls, n) <==> !polls[|polls| - 1] && LastDisconnected(before, n - 1)
      {
        if LastDisconnected(polls, n) {
          assert forall i :: |before| - (n - 1) <= i < |before| ==> polls[i] == before[i];
        }
      }
    }
  }
}

/**
 * The service catalogue (`src/accessories/serviceCatalogue.ts`): every row, the scopes
 * it reads, and what it publishes when those scopes can be vouched for.
 */
module ServiceCatalogue {
  import opened Wrappers
  import opened Gemini
  import opened Trust
  import PumpRecords

  datatype Kind =
    | SumpPitFlood
    | SumpPitLevel
    | PrimaryPump
    | PrimaryPumpActivity
    | BackupPump
    | BackupPumpActivity
    | SumpMainsPower
    | MainsPowerLost
    | BackupBatteryLevel
    | BackupBattery
    | PrimaryPumpAlert
    | BackupPumpAlert
    | WaterSensorAlert
    | ControllerLinkAlert
    | SystemSelfTest
    | AlarmMuteSwitch
    | OfflineAlert

  const CATALOGUE: seq<Kind> := [
    SumpPitFlood, SumpPitLevel, PrimaryPump, PrimaryPumpActivity, BackupPump, BackupPumpActivity, SumpMainsPower,
    MainsPowerLost, BackupBatteryLevel, BackupBattery, PrimaryPumpAlert, BackupPumpAlert, WaterSensorAlert,
    ControllerLinkAlert, SystemSelfTest, AlarmMuteSwitch, OfflineAlert
  ]

  datatype Characteristic =
    | LeakDetected
    | WaterLevel
    | RawWaterLevelCode
    | WaterSensorFaultReported
    | StatusFault
    | PumpRunning
    | PumpFault
    | PumpFuseBlown
    | ObservationStartedAt
    | ObservedActivationCount
    | LastObservedActivationAt
    | LastActivationWasTestActivity
    | ContactSensorState
    | MainsPowerPresent
    | StatusLowBattery
    | BatteryLevel
    | ChargingState
    | BatteryCharging
    | BatteryVoltageLow
    | BatteryHealthCode
    | ProtectionHoursCode
    | ControllerLinkPresent
    | ControllerDataLastTrustedAt
    | On

  /** A published value. `Alarm` is HAP's two-state enumeration with `true` for the state that asks for attention. */
  datatype Reading =
    | Truth(truth: bool)
    | Alarm(raised: bool)
    | Level(percent: int)
    | Code(code: real)
    | Count(count: int)
    | Time(at: Option<int>)

  // ---- The rows ----

  function ScopeOf(kind: Kind): Scope {
    match kind
    case SumpPitFlood => Water
    case SumpPitLevel => Water
    case PrimaryPump => Pump
    case PrimaryPumpActivity => Pump
    case BackupPump => Pump
    case BackupPumpActivity => Pump
    case SumpMainsPower => Power
    case MainsPowerLost => Power
    case BackupBatteryLevel => Battery
    case BackupBattery => Battery
    case SystemSelfTest => SelfTest
    case AlarmMuteSwitch => AlarmMute
    case OfflineAlert => Connectivity
    case _ => Fault
  }

  function ReadScopes(kind: Kind): seq<Scope> {
    if kind.SumpPitLevel? || kind.PrimaryPump? || kind.BackupPump? then [ScopeOf(kind), Fault] else [ScopeOf(kind)]
  }

  predicate Tolerates(kind: Kind, reason: Distrust) {
    kind.ControllerLinkAlert? && reason.ControllerLinkLost?
  }

  predicate AlwaysPublishes(kind: Kind) {
    kind.SystemSelfTest? || kind.AlarmMuteSwitch?
  }

  /** The characteristics HAP constructs at a default when the row's service is added. */
  function Required(kind: Kind): set<Characteristic> {
    match kind
    case SumpPitFlood => {LeakDetected}
    case SumpPitLevel => {Characteristic.WaterLevel, RawWaterLevelCode}
    case PrimaryPump => {PumpRunning}
    case BackupPump => {PumpRunning}
    case SumpMainsPower => {MainsPowerPresent}
    case BackupBatteryLevel => {StatusLowBattery}
    case BackupBattery => {Characteristic.BatteryCharging, Characteristic.BatteryVoltageLow, BatteryHealthCode, ProtectionHoursCode}
    case SystemSelfTest => {On}
    case AlarmMuteSwitch => {On}
    case _ => {ContactSensorState}
  }

  // ---- Trust ----

  /** No reason the row does not tolerate: this is what `StatusActive` reports, scope by scope. */
  predicate IsTrusted(kind: Kind, scope: Scope, untrusted: Reasons) {
    scope in untrusted ==> Tolerates(kind, untrusted[scope])
  }

  /** No reason that puts the value itself in doubt: an unreachable scope still publishes. */
  predicate IsPublishable(kind: Kind, scope: Scope, untrusted: Reasons) {
    scope in untrusted ==> untrusted[scope].Unreachable? || Tolerates(kind, untrusted[scope])
  }

  predicate IsFullyTrusted(kind: Kind, untrusted: Reasons) {
    forall scope :: scope in ReadScopes(kind) ==> IsTrusted(kind, scope, untrusted)
  }

  // ---- What a row publishes ----

  /** Everything a row reads. */
  datatype Input = Input(
    decoded: Option<DomainState>,
    untrusted: Reasons,
    offlineConfirmed: bool,
    controllerDataLastTrustedAt: Option<int>,
    pendingControls: set<Kind>,
    records: Option<PumpRecords.Record>)

  /** The scope whose decoded group a characteristic's fact comes from. */
  function SourceOf(kind: Kind, c: Characteristic): Option<Scope> {
    match kind
    case SumpPitLevel =>
      if c.WaterLevel? || c.RawWaterLevelCode? then Some(Water)
      else if c.WaterSensorFaultReported? || c.StatusFault? then Some(Fault)
      else None
    case PrimaryPump =>
      if c.PumpRunning? then Some(Pump) else if c.PumpFault? || c.StatusFault? then Some(Fault) else None
    case BackupPump =>
      if c.PumpRunning? then Some(Pump)
      else if c.PumpFault? || c.PumpFuseBlown? || c.StatusFault? then Some(Fault)
      else None
    case SumpPitFlood => if c.LeakDetected? then Some(Water) else None
    case PrimaryPumpActivity => if c.ContactSensorState? then Some(Pump) else None
    case BackupPumpActivity => if c.ContactSensorState? then Some(Pump) else None
    case SumpMainsPower => if c.MainsPowerPresent? then Some(Power) else None
    case MainsPowerLost => if c.ContactSensorState? || c.StatusFault? then Some(Power) else None
    case BackupBatteryLevel => if c.StatusLowBattery? || c.BatteryLevel? || c.ChargingState? then Some(Battery) else None
    case BackupBattery => if c in Required(BackupBattery) then Some(Battery) else None
    case ControllerLinkAlert =>
      if c.ContactSensorState? || c.StatusFault? || c.ControllerLinkPresent? then Some(Fault) else None
    case SystemSelfTest => if c.On? then Some(SelfTest) else None
    case AlarmMuteSwitch => if c.On? then Some(AlarmMute) else None
    case OfflineAlert => None
    case _ => if c.ContactSensorState? || c.StatusFault? then Some(Fault) else None
  }

  function WaterFact(c: Characteristic, water: WaterState): Reading {
    if c.WaterLevel? then Level(water.levelPercent)
    else if c.RawWaterLevelCode? then Code(water.levelCode)
    else Alarm(water.flooded)
  }

  function PumpFact(kind: Kind, c: Characteristic, pump: PumpState): Reading {
    var running := if kind.PrimaryPump? || kind.PrimaryPumpActivity? then pump.primaryRunning else pump.backupRunning;
    if c.PumpRunning? then Truth(running) else Alarm(running)
  }

  function PowerFact(c: Characteristic, mainsPresent: bool): Reading {
    if c.MainsPowerPresent? then Truth(mainsPresent)
    else if c.StatusFault? then Alarm(false)
    else Alarm(!mainsPresent)
  }

  function BatteryFact(c: Characteristic, battery: BatteryState): Reading {
    match c
    case StatusLowBattery => Alarm(battery.low)
    case BatteryLevel => Level(battery.levelPercent)
    case ChargingState => Truth(battery.charging)
    case BatteryCharging => Truth(battery.charging)
    case BatteryVoltageLow => Truth(battery.voltageLow)
    case BatteryHealthCode => Code(battery.healthCode)
    case _ => Code(battery.protectionHoursCode)
  }

  /** The backup fault merges the pump's own fault and its fuse. */
  function FaultFact(kind: Kind, c: Characteristic, fault: FaultState): Reading {
    match kind
    case SumpPitLevel => if c.StatusFault? then Alarm(fault.waterSensorFault) else Truth(fault.waterSensorFault)
    case WaterSensorAlert => Alarm(fault.waterSensorFault)
    case PrimaryPump => if c.StatusFault? then Alarm(fault.primaryPumpFault) else Truth(fault.primaryPumpFault)
    case PrimaryPumpAlert => Alarm(fault.primaryPumpFault)
    case BackupPump =>
      if c.StatusFault? then Alarm(fault.backupPumpFault || fault.backupPumpFuseBlown)
      else if c.PumpFuseBlown? then Truth(fault.backupPumpFuseBlown)
      else Truth(fault.backupPumpFault)
    case BackupPumpAlert => Alarm(fault.backupPumpFault || fault.backupPumpFuseBlown)
    case _ => if c.ControllerLinkPresent? then Truth(fault.controllerLinkPresent) else Alarm(!fault.controllerLinkPresent)
  }

  /** The fact a decoded state holds for a characteristic, absent with its group. */
  function FactOf(kind: Kind, c: Characteristic, state: DomainState): Option<Reading> {
    match SourceOf(kind, c)
    case None => None
    case Some(Water) => if state.water.Some? then Some(WaterFact(c, state.water.value)) else None
    case Some(Pump) => if state.pump.Some? then Some(PumpFact(kind, c, state.pump.value)) else None
    case Some(Power) => if state.mainsPresent.Some? then Some(PowerFact(c, state.mainsPresent.value)) else None
    case Some(Battery) => if state.battery.Some? then Some(BatteryFact(c, state.battery.value)) else None
    case Some(Fault) => if state.fault.Some? then Some(FaultFact(kind, c, state.fault.value)) else None
    case Some(SelfTest) => if state.selfTest.Some? then Some(Truth(state.selfTest.value.running)) else None
    case Some(AlarmMute) => if state.alarmMuted.Some? then Some(Truth(state.alarmMuted.value)) else None
    case Some(Connectivity) => None
  }

  /** A fact the row may still publish: its group decoded and its scope is not in doubt. */
  function TrustedFact(kind: Kind, c: Characteristic, input: Input): Option<Reading> {
    if input.decoded.None? || SourceOf(kind, c).None? then None
    else if !IsPublishable(kind, SourceOf(kind, c).value, input.untrusted) then None
    else FactOf(kind, c, input.decoded.value)
  }

  /** The observation record publishes beside the running state and never instead of it. */
  function RecordFact(kind: Kind, c: Characteristic, input: Input): Option<Reading> {
    if !(kind.PrimaryPump? || kind.BackupPump?) || input.records.None? || TrustedFact(kind, PumpRunning, input).None? then None
    else
      var record := if kind.PrimaryPump? then input.records.value.primary else input.records.value.backup;
      match c
      case ObservationStartedAt => Some(Time(Some(record.observationStartedAt)))
      case ObservedActivationCount => Some(Count(record.activationCount))
      case LastObservedActivationAt => Some(Time(record.lastActivationAt))
      case LastActivationWasTestActivity =>
        if kind.BackupPump? && record.testActivity.Some? then Some(Truth(record.testActivity.value)) else None
      case _ => None
  }

  function Candidate(kind: Kind, c: Characteristic, input: Input): Option<Reading> {
    if kind.OfflineAlert? then
      if c.ContactSensorState? then Some(Alarm(input.offlineConfirmed)) else None
    else if c.ControllerDataLastTrustedAt? then
      if kind.ControllerLinkAlert? && TrustedFact(kind, ControllerLinkPresent, input).Some? then Some(Time(input.controllerDataLastTrustedAt))
      else None
    else if c.On? && kind in input.pendingControls then
      None
    else if SourceOf(kind, c).Some? then
      TrustedFact(kind, c, input)
    else
      RecordFact(kind, c, input)
  }

  /** The values a row publishes: nothing at all while its own scope is in doubt. */
  function Project(kind: Kind, input: Input): map<Characteristic, Reading> {
    if !IsPublishable(kind, ScopeOf(kind), input.untrusted) then map[]
    else map c: Characteristic | Candidate(kind, c, input).Some? :: Candidate(kind, c, input).value
  }

  // ---- Services ----

  /** A service this run publishes on: what it pushed, and the trust it last reported. */
  datatype Service = Service(pushed: map<Characteristic, Reading>, active: Option<bool>)

  type Services = map<Kind, Service>

  const Fresh := Service(map[], None)

  function Pushed(service: Service, kind: Kind, input: Input): Service {
    Service(service.pushed + Project(kind, input), Some(IsFullyTrusted(kind, input.untrusted)))
  }

  /** A push that threw part-way: the landed values are there, and the trust report, which comes last, is not. */
  function PushedInPart(service: Service, kind: Kind, input: Input, landed: set<Characteristic>): Service {
    var values := Project(kind, input);
    service.(pushed := service.pushed + map c | c in values && c in landed :: values[c])
  }

  function At(services: Services, kind: Kind): Option<Service> {
    if kind in services then Some(services[kind]) else None
  }

  /** One row of the publishing pass, which may add a service. */
  function RowPublished(service: Option<Service>, kind: Kind, input: Input, suppressed: set<Kind>): Option<Service> {
    if kind in suppressed then None
    else if service.Some? then Some(Pushed(service.value, kind, input))
    else if Project(kind, input) == map[] && !AlwaysPublishes(kind) then None
    else Some(Pushed(Fresh, kind, input))
  }

  /** One row of the refreshing pass, which adds none. A row in `failing` throws after those of its values landed. */
  function RowRefreshed(
      service: Option<Service>, kind: Kind, input: Input, suppressed: set<Kind>, failing: map<Kind, set<Characteristic>>)
    : Option<Service>
  {
    if service.None? then None
    else if kind in failing then
      if kind in suppressed then service else Some(PushedInPart(service.value, kind, input, failing[kind]))
    else if kind in suppressed then None
    else Some(Pushed(service.value, kind, input))
  }

  function AllPublished(services: Services, input: Input, suppressed: set<Kind>): Services {
    map kind: Kind | RowPublished(At(services, kind), kind, input, suppressed).Some? ::
      RowPublished(At(services, kind), kind, input, suppressed).value
  }

  function AllRefreshed(services: Services, input: Input, suppressed: set<Kind>, failing: map<Kind, set<Characteristic>>): Services {
    map kind: Kind | RowRefreshed(At(services, kind), kind, input, suppressed, failing).Some? ::
      RowRefreshed(At(services, kind), kind, input, suppressed, failing).value
  }

  /** The control rows alone, as a refused write's clearing push republishes them. */
  function ControlsRefreshed(services: Services, input: Input): Services {
    map kind | kind in services ::
      if AlwaysPublishes(kind) then Pushed(services[kind], kind, input) else services[kind]
  }

  // ---- Walking the catalogue ----

  function Position(kind: Kind): nat {
    match kind
    case SumpPitFlood => 0
    case SumpPitLevel => 1
    case PrimaryPump => 2
    case PrimaryPumpActivity => 3
    case BackupPump => 4
    case BackupPumpActivity => 5
    case SumpMainsPower => 6
    case MainsPowerLost => 7
    case BackupBatteryLevel => 8
    case BackupBattery => 9
    case PrimaryPumpAlert => 10
    case BackupPumpAlert => 11
    case WaterSensorAlert => 12
    case ControllerLinkAlert => 13
    case SystemSelfTest => 14
    case AlarmMuteSwitch => 15
    case OfflineAlert => 16
  }

  /** Every row is in the catalogue, and in one place only. */
  lemma RowsAreListedOnce(kind: Kind, i: nat)
    requires i < |CATALOGUE|
    ensures Position(kind) < |CATALOGUE| && (Position(kind) == i <==> CATALOGUE[i] == kind)
  {
  }

  /** A pass part-way through the catalogue: the first `i` rows are done, the rest are as they were. */
  ghost function PartWay(before: Services, after: Services, i: nat): Services {
    map kind: Kind | At(if Position(kind) < i then after else before, kind).Some? ::
      At(if Position(kind) < i then after else before, kind).value
  }

  lemma PartWayAt(before: Services, after: Services, i: nat, kind: Kind)
    ensures At(PartWay(before, after, i), kind) == At(if Position(kind) < i then after else before, kind)
  {
  }

  lemma SameRowsAreTheSame(services: Services, other: Services)
    requires forall kind: Kind :: At(services, kind) == At(other, kind)
    ensures services == other
  {
    forall kind: Kind ensures kind in services <==> kind in other {
      assert At(services, kind) == At(other, kind);
    }
    forall kind | kind in services ensures services[kind] == other[kind] {
      assert At(services, kind) == At(other, kind);
    }
  }

  lemma PassBegins(before: Services, after: Services)
    ensures PartWay(before, after, 0) == before
  {
    forall kind: Kind ensures At(PartWay(before, after, 0), kind) == At(before, kind) {
      PartWayAt(before, after, 0, kind);
    }
    SameRowsAreTheSame(PartWay(before, after, 0), before);
  }

  lemma PassEnds(before: Services, after: Services)
    ensures PartWay(before, after, |CATALOGUE|) == after
  {
    forall kind: Kind ensures At(PartWay(before, after, |CATALOGUE|), kind) == At(after, kind) {
      RowsAreListedOnce(kind, 0);
      PartWayAt(before, after, |CATALOGUE|, kind);
    }
    SameRowsAreTheSame(PartWay(before, after, |CATALOGUE|), after);
  }

  /** The services with one row's outcome in place. */
  function Settled(services: Services, row: Kind, outcome: Option<Service>): Services {
    if outcome.Some? then services[row := outcome.value] else services - {row}
  }

  lemma SettledAt(services: Services, row: Kind, outcome: Option<Service>, kind: Kind)
    ensures At(Settled(services, row, outcome), kind) == if kind == row then outcome else At(services, kind)
  {
  }

  lemma PassGoesOn(before: Services, after: Services, i: nat)
    requires i < |CATALOGUE|
    ensures At(PartWay(before, after, i), CATALOGUE[i]) == At(before, CATALOGUE[i])
    ensures PartWay(before, after, i + 1) == Settled(PartWay(before, after, i), CATALOGUE[i], At(after, CATALOGUE[i]))
  {
    var row := CATALOGUE[i];
    RowsAreListedOnce(row, i);
    PartWayAt(before, after, i, row);
    var here, next := PartWay(before, after, i), PartWay(before, after, i + 1);
    forall kind: Kind ensures At(next, kind) == At(Settled(here, row, At(after, row)), kind) {
      RowsAreListedOnce(kind, i);
      PartWayAt(before, after, i, kind);
      PartWayAt(before, after, i + 1, kind);
      SettledAt(here, row, At(after, row), kind);
    }
    SameRowsAreTheSame(next, Settled(here, row, At(after, row)));
  }

  // ---- What the gates mean ----

  /**
   * A value is withheld exactly when its scope failed validation, or the controller
   * link is lost, no transport is lost with it, and the row does not report the link itself.
   */
  lemma WithheldExactlyWhen(kind: Kind, scope: Scope, device: DeviceDistrust, trust: MonitoringTrust)
    ensures !IsPublishable(kind, scope, ReasonsOf(device, MonitoringDegradedScopes(trust))) <==>
              || scope in device.violated
              || (device.controllerLinkLost && !scope.Connectivity? && !CannotBeObserved(scope, trust) && !kind.ControllerLinkAlert?)
  {
    assert scope in EVERY_SCOPE;
    DegradedExactlyWhenUnobservable(scope, trust);
  }

  /** Trust is withdrawn exactly when any reason applies that the row does not tolerate. */
  lemma DistrustedExactlyWhen(kind: Kind, scope: Scope, device: DeviceDistrust, trust: MonitoringTrust)
    ensures !IsTrusted(kind, scope, ReasonsOf(device, MonitoringDegradedScopes(trust))) <==>
              || scope in device.violated
              || CannotBeObserved(scope, trust)
              || (device.controllerLinkLost && !scope.Connectivity? && !kind.ControllerLinkAlert?)
  {
    assert scope in EVERY_SCOPE;
    DegradedExactlyWhenUnobservable(scope, trust);
  }

  /** A row reads a scope when one of its characteristics does; the offline adapter reads the poll's own. */
  ghost predicate Reads(kind: Kind, scope: Scope) {
    if kind.OfflineAlert? then scope.Connectivity? else exists c :: SourceOf(kind, c) == Some(scope)
  }

  lemma ReadScopesAreRead(kind: Kind, scope: Scope)
    ensures scope in ReadScopes(kind) <==> Reads(kind, scope)
  {
    if scope in ReadScopes(kind) && !kind.OfflineAlert? {
      var c := CharacteristicOf(kind, scope);
      assert SourceOf(kind, c) == Some(scope);
    }
  }

  /** One characteristic of the row for each scope it reads. */
  function CharacteristicOf(kind: Kind, scope: Scope): Characteristic {
    match kind
    case SumpPitFlood => LeakDetected
    case SumpPitLevel => if scope.Water? then Characteristic.WaterLevel else StatusFault
    case PrimaryPump => if scope.Pump? then PumpRunning else StatusFault
    case BackupPump => if scope.Pump? then PumpRunning else StatusFault
    case SumpMainsPower => MainsPowerPresent
    case BackupBatteryLevel => StatusLowBattery
    case BackupBattery => BatteryHealthCode
    case SystemSelfTest => On
    case AlarmMuteSwitch => On
    case _ => ContactSensorState
  }

  /** Every scope the row reads was valid, can be observed, and is not behind a lost link the row does not tolerate. */
  ghost predicate CanVouch(kind: Kind, device: DeviceDistrust, trust: MonitoringTrust) {
    forall scope :: Reads(kind, scope) ==>
      && scope !in device.violated
      && !CannotBeObserved(scope, trust)
      && !(device.controllerLinkLost && !scope.Connectivity? && !kind.ControllerLinkAlert?)
  }

  lemma FullyTrustedExactlyWhen(kind: Kind, device: DeviceDistrust, trust: MonitoringTrust)
    ensures IsFullyTrusted(kind, ReasonsOf(device, MonitoringDegradedScopes(trust))) <==> CanVouch(kind, device, trust)
  {
    forall scope ensures scope in ReadScopes(kind) <==> Reads(kind, scope) {
      ReadScopesAreRead(kind, scope);
    }
    forall scope
      ensures IsTrusted(kind, scope, ReasonsOf(device, MonitoringDegradedScopes(trust))) <==>
                !(|| scope in device.violated || CannotBeObserved(scope, trust)
                  || (device.controllerLinkLost && !scope.Connectivity? && !kind.ControllerLinkAlert?))
    {
      DistrustedExactlyWhen(kind, scope, device, trust);
    }
  }

  /** More distrust does not always withhold more: losing both transports on top of the controller link publishes again. */
  lemma LosingSightPublishesAgain()
    ensures var linkLost := DeviceDistrust({}, true);
            && !IsPublishable(SumpPitFlood, Water, ReasonsOf(linkLost, MonitoringDegradedScopes(MonitoringTrust(false, false, true, false))))
            && IsPublishable(SumpPitFlood, Water, ReasonsOf(linkLost, MonitoringDegradedScopes(MonitoringTrust(true, true, false, false))))
  {
    WithheldExactlyWhen(SumpPitFlood, Water, DeviceDistrust({}, true), MonitoringTrust(false, false, true, false));
    WithheldExactlyWhen(SumpPitFlood, Water, DeviceDistrust({}, true), MonitoringTrust(true, true, false, false));
  }

  /** The input of a publishing pass: the decoded payload, under the distrust its own validation reports. */
  ghost predicate FromPayload(input: Input, data: Payload, metadata: Payload, linkLost: bool, trust: MonitoringTrust) {
    && input.decoded.Some?
    && Decode(data, metadata) == Got(input.decoded.value)
    && input.untrusted == ReasonsOf(DeviceDistrust(UntrustedScopes(data), linkLost), MonitoringDegradedScopes(trust))
  }

  /** A publishable scope of a decoded payload has its group. */
  lemma PublishableScopesDecoded(kind: Kind, scope: Scope, input: Input, data: Payload, metadata: Payload, linkLost: bool, trust: MonitoringTrust)
    requires FromPayload(input, data, metadata, linkLost, trust)
    requires IsPublishable(kind, scope, input.untrusted)
    ensures HasGroup(input.decoded.value, scope)
  {
    WithheldExactlyWhen(kind, scope, DeviceDistrust(UntrustedScopes(data), linkLost), trust);
    GatesDecidePresence(data, metadata);
  }

  /** Every required characteristic comes from the row's own scope. */
  lemma RequiredFactsAreThere(kind: Kind, c: Characteristic, state: DomainState)
    requires !AlwaysPublishes(kind) && c in Required(kind) && HasGroup(state, ScopeOf(kind)) && !kind.OfflineAlert?
    ensures SourceOf(kind, c) == Some(ScopeOf(kind)) && FactOf(kind, c, state).Some?
  {
  }

  lemma RequiredIsPublished(kind: Kind, c: Characteristic, input: Input)
    requires !AlwaysPublishes(kind) && c in Required(kind) && !kind.OfflineAlert?
    requires input.decoded.Some? && IsPublishable(kind, ScopeOf(kind), input.untrusted)
    requires HasGroup(input.decoded.value, ScopeOf(kind))
    ensures Candidate(kind, c, input).Some?
  {
    RequiredFactsAreThere(kind, c, input.decoded.value);
    assert TrustedFact(kind, c, input) == FactOf(kind, c, input.decoded.value);
    assert Candidate(kind, c, input) == TrustedFact(kind, c, input);
  }

  /**
   * A row of the publishing pass that projects anything projects every characteristic
   * its service class requires, so a service the pass adds never shows a HAP default.
   */
  lemma ProjectionsAreComplete(kind: Kind, input: Input, data: Payload, metadata: Payload, linkLost: bool, trust: MonitoringTrust)
    requires FromPayload(input, data, metadata, linkLost, trust)
    requires !AlwaysPublishes(kind) && Project(kind, input) != map[]
    ensures Required(kind) <= Project(kind, input).Keys
  {
    PublishableScopesDecoded(kind, ScopeOf(kind), input, data, metadata, linkLost, trust);
    forall c | c in Required(kind) ensures Candidate(kind, c, input).Some? {
      if !kind.OfflineAlert? {
        RequiredIsPublished(kind, c, input);
      }
    }
  }

  // ---- From the vendor's fields to the published value ----

  function PercentOf(read: Read<int>): int {
    if read.Got? then read.value else 0
  }

  /** What a tile has to show, said by the vendor's fields alone. */
  function Reported(kind: Kind, c: Characteristic, data: Payload): Reading {
    match kind
    case SumpPitFlood => Alarm(NumberAt(data, Key.WaterLevel) == 31.0)
    case SumpPitLevel =>
      if c.WaterLevel? then Level(PercentOf(WaterLevelPercentage(NumberAt(data, Key.WaterLevel))))
      else if c.RawWaterLevelCode? then Code(NumberAt(data, Key.WaterLevel))
      else if c.StatusFault? then Alarm(FlagAt(data, WaterSensorFault))
      else Truth(FlagAt(data, WaterSensorFault))
    case PrimaryPump =>
      if c.PumpRunning? then Truth(FlagAt(data, PrimaryPumpRunning))
      else if c.StatusFault? then Alarm(FlagAt(data, PrimaryPumpFault))
      else Truth(FlagAt(data, PrimaryPumpFault))
    case BackupPump =>
      if c.PumpRunning? then Truth(FlagAt(data, BackupPumpRunning))
      else if c.PumpFault? then Truth(FlagAt(data, BackupPumpFault))
      else if c.PumpFuseBlown? then Truth(FlagAt(data, BackupPumpFuseBlown))
      else Alarm(FlagAt(data, BackupPumpFault) || FlagAt(data, BackupPumpFuseBlown))
    case PrimaryPumpActivity => Alarm(FlagAt(data, PrimaryPumpRunning))
    case BackupPumpActivity => Alarm(FlagAt(data, BackupPumpRunning))
    case SumpMainsPower => Truth(FlagAt(data, AcPower))
    case MainsPowerLost => Alarm(c.ContactSensorState? && !FlagAt(data, AcPower))
    case BackupBatteryLevel =>
      if c.StatusLowBattery? then Alarm(FlagAt(data, Key.BatteryVoltageLow) || NumberAt(data, BatteryHealth) in {1.0, 2.0, 32.0})
      else if c.BatteryLevel? then Level(PercentOf(ProtectionHoursPercentage(NumberAt(data, HoursOfProtection))))
      else Truth(FlagAt(data, Key.BatteryCharging))
    case BackupBattery =>
      if c.BatteryCharging? then Truth(FlagAt(data, Key.BatteryCharging))
      else if c.BatteryVoltageLow? then Truth(FlagAt(data, Key.BatteryVoltageLow))
      else if c.BatteryHealthCode? then Code(NumberAt(data, BatteryHealth))
      else Code(NumberAt(data, HoursOfProtection))
    case PrimaryPumpAlert => Alarm(FlagAt(data, PrimaryPumpFault))
    case BackupPumpAlert => Alarm(FlagAt(data, BackupPumpFault) || FlagAt(data, BackupPumpFuseBlown))
    case WaterSensorAlert => Alarm(FlagAt(data, WaterSensorFault))
    case ControllerLinkAlert =>
      if c.ControllerLinkPresent? then Truth(FlagAt(data, SerialCommunications)) else Alarm(!FlagAt(data, SerialCommunications))
    case SystemSelfTest => Truth(FlagAt(data, TestRunning))
    case AlarmMuteSwitch => Truth(FlagAt(data, AlarmAudioMuted))
    case OfflineAlert => Alarm(false)
  }

  lemma FaultFactsAreTheFields(kind: Kind, c: Characteristic, data: Payload, metadata: Payload)
    requires SourceOf(kind, c) == Some(Fault) && Fault !in UntrustedScopes(data)
    ensures Decode(data, metadata).Got? && FactOf(kind, c, Decode(data, metadata).value) == Some(Reported(kind, c, data))
  {
    FaultSays(data, metadata);
  }

  lemma WaterFactsAreTheFields(kind: Kind, c: Characteristic, data: Payload, metadata: Payload)
    requires SourceOf(kind, c) == Some(Water) && Water !in UntrustedScopes(data)
    ensures Decode(data, metadata).Got? && FactOf(kind, c, Decode(data, metadata).value) == Some(Reported(kind, c, data))
  {
    WaterSays(data, metadata);
  }

  lemma PumpFactsAreTheFields(kind: Kind, c: Characteristic, data: Payload, metadata: Payload)
    requires SourceOf(kind, c) == Some(Pump) && Pump !in UntrustedScopes(data)
    ensures Decode(data, metadata).Got? && FactOf(kind, c, Decode(data, metadata).value) == Some(Reported(kind, c, data))
  {
    PumpSays(data, metadata);
  }

  lemma BatteryLevelFactsAreTheFields(c: Characteristic, data: Payload, metadata: Payload)
    requires SourceOf(BackupBatteryLevel, c) == Some(Battery) && Battery !in UntrustedScopes(data)
    ensures Decode(data, metadata).Got?
    ensures FactOf(BackupBatteryLevel, c, Decode(data, metadata).value) == Some(Reported(BackupBatteryLevel, c, data))
  {
    BatterySays(data, metadata);
    var battery := Decode(data, metadata).value.battery.value;
    assert FactOf(BackupBatteryLevel, c, Decode(data, metadata).value) == Some(BatteryFact(c, battery));
  }

  lemma BatteryCodeFactsAreTheFields(c: Characteristic, data: Payload, metadata: Payload)
    requires SourceOf(BackupBattery, c) == Some(Battery) && Battery !in UntrustedScopes(data)
    ensures Decode(data, metadata).Got?
    ensures FactOf(BackupBattery, c, Decode(data, metadata).value) == Some(Reported(BackupBattery, c, data))
  {
    BatterySays(data, metadata);
    var battery := Decode(data, metadata).value.battery.value;
    assert FactOf(BackupBattery, c, Decode(data, metadata).value) == Some(BatteryFact(c, battery));
  }

  lemma BatteryFactsAreTheFields(kind: Kind, c: Characteristic, data: Payload, metadata: Payload)
    requires SourceOf(kind, c) == Some(Battery) && Battery !in UntrustedScopes(data)
    ensures Decode(data, metadata).Got? && FactOf(kind, c, Decode(data, metadata).value) == Some(Reported(kind, c, data))
  {
    if kind.BackupBatteryLevel? {
      BatteryLevelFactsAreTheFields(c, data, metadata);
    } else {
      BatteryCodeFactsAreTheFields(c, data, metadata);
    }
  }

  lemma PowerFactsAreTheFields(kind: Kind, c: Characteristic, data: Payload, metadata: Payload)
    requires SourceOf(kind, c) == Some(Power) && Power !in UntrustedScopes(data)
    ensures Decode(data, metadata).Got? && FactOf(kind, c, Decode(data, metadata).value) == Some(Reported(kind, c, data))
  {
    FlagsSay(data, metadata);
  }

  lemma ControlFactsAreTheFields(kind: Kind, c: Characteristic, data: Payload, metadata: Payload)
    requires SourceOf(kind, c).Some? && SourceOf(kind, c).value !in UntrustedScopes(data)
    requires SourceOf(kind, c).value in {SelfTest, AlarmMute}
    ensures Decode(data, metadata).Got? && FactOf(kind, c, Decode(data, metadata).value) == Some(Reported(kind, c, data))
  {
    FlagsSay(data, metadata);
  }

  /** The fact a valid payload decodes to is what its vendor fields say. */
  lemma FactsAreTheFields(kind: Kind, c: Characteristic, data: Payload, metadata: Payload)
    requires SourceOf(kind, c).Some? && SourceOf(kind, c).value !in UntrustedScopes(data)
    ensures Decode(data, metadata).Got? && FactOf(kind, c, Decode(data, metadata).value) == Some(Reported(kind, c, data))
  {
    match SourceOf(kind, c).value
    case Water => WaterFactsAreTheFields(kind, c, data, metadata);
    case Pump => PumpFactsAreTheFields(kind, c, data, metadata);
    case Battery => BatteryFactsAreTheFields(kind, c, data, metadata);
    case Fault => FaultFactsAreTheFields(kind, c, data, metadata);
    case Power => PowerFactsAreTheFields(kind, c, data, metadata);
    case _ => ControlFactsAreTheFields(kind, c, data, metadata);
  }
}
