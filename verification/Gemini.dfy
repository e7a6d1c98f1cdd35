/**
 * The Gemini family adapter (`src/device/gemini.ts`): what it refuses, and what it decodes.
 *
 * A payload maps vendor keys to parsed JSON values; a key the family does not read
 * is `Other`. A decoder throws when a field is not what it expects, so "decoding
 * never throws" is something to prove about the gates in front of it.
 */
module Gemini {
  import opened Wrappers
  import opened Telemetry

  datatype Key =
    | WaterLevel
    | PrimaryPumpRunning
    | PrimaryPumpFault
    | BackupPumpRunning
    | BackupPumpFault
    | BackupPumpFuseBlown
    | BackupPumpTimestamp
    | AcPower
    | BatteryCharging
    | BatteryVoltageLow
    | BatteryHealth
    | HoursOfProtection
    | WaterSensorFault
    | SerialCommunications
    | AlarmAudioMuted
    | TestRunning
    | TestTimestamp
    | Offline
    | WifiSignalDbm
    | McuFirmwareVersion
    | WifiFirmwareVersion
    | McuTargetVersion
    | Other(name: string)

  type Payload = map<Key, Value>

  datatype Scope = Water | Pump | Power | Battery | Fault | Connectivity | SelfTest | AlarmMute

  /** The scope a field belongs to; metadata has no safety scope. */
  datatype FieldScope = Safety(scope: Scope) | Metadata

  datatype Reason = Missing | WrongType | OutOfDomain

  datatype Violation = Violation(key: Key, reason: Reason, scope: FieldScope)

  datatype Shape = RequiredBoolean | RequiredEnum(legal: set<real>) | OptionalNumber | OptionalText

  datatype Check = Check(scope: FieldScope, key: Key, shape: Shape)

  const WATER_LEVEL_VALUES: set<real> := {0.0, 1.0, 3.0, 7.0, 15.0, 31.0}
  const BATTERY_HEALTH_VALUES: set<real> := {1.0, 2.0, 4.0, 8.0, 16.0, 32.0}
  const LOW_BATTERY_HEALTH_VALUES: set<real> := {1.0, 2.0, 32.0}
  const HOURS_OF_PROTECTION_VALUES: set<real> := {1.0, 2.0, 4.0, 8.0}
  const FLOOD_WATER_LEVEL_CODE: real := 31.0

  const TELEMETRY_CHECKS: seq<Check> := [
    Check(Safety(Water), WaterLevel, RequiredEnum(WATER_LEVEL_VALUES)),
    Check(Safety(Pump), PrimaryPumpRunning, RequiredBoolean),
    Check(Safety(Fault), PrimaryPumpFault, RequiredBoolean),
    Check(Safety(Pump), BackupPumpRunning, RequiredBoolean),
    Check(Safety(Fault), BackupPumpFault, RequiredBoolean),
    Check(Safety(Fault), BackupPumpFuseBlown, RequiredBoolean),
    Check(Safety(Pump), BackupPumpTimestamp, OptionalNumber),
    Check(Safety(Power), AcPower, RequiredBoolean),
    Check(Safety(Battery), BatteryCharging, RequiredBoolean),
    Check(Safety(Battery), BatteryVoltageLow, RequiredBoolean),
    Check(Safety(Battery), BatteryHealth, RequiredEnum(BATTERY_HEALTH_VALUES)),
    Check(Safety(Battery), HoursOfProtection, RequiredEnum(HOURS_OF_PROTECTION_VALUES)),
    Check(Safety(Fault), WaterSensorFault, RequiredBoolean),
    Check(Safety(Fault), SerialCommunications, RequiredBoolean),
    Check(Safety(AlarmMute), AlarmAudioMuted, RequiredBoolean),
    Check(Safety(SelfTest), TestRunning, RequiredBoolean),
    Check(Safety(SelfTest), TestTimestamp, OptionalNumber),
    Check(Safety(Connectivity), Offline, RequiredBoolean)
  ]

  const METADATA_CHECKS: seq<Check> := [
    Check(Metadata, WifiSignalDbm, OptionalNumber),
    Check(Metadata, McuFirmwareVersion, OptionalText),
    Check(Metadata, WifiFirmwareVersion, OptionalText),
    Check(Metadata, McuTargetVersion, OptionalText)
  ]

  // ---- Validation ----

  function FaultOf(check: Check, data: Payload): Option<Reason> {
    if check.key !in data then
      if check.shape.RequiredBoolean? || check.shape.RequiredEnum? then Some(Missing) else None
    else
      var value := data[check.key];
      match check.shape
      case RequiredBoolean => if value.Flag? then None else Some(WrongType)
      case RequiredEnum(legal) =>
        if !value.Number? then Some(WrongType) else if value.number in legal then None else Some(OutOfDomain)
      case OptionalNumber => if value.Number? then None else Some(WrongType)
      case OptionalText => if value.Text? then None else Some(WrongType)
  }

  /** The violations of a check list: one per failing check, in the list's order. */
  function Violations(checks: seq<Check>, data: Payload): seq<Violation> {
    if checks == [] then []
    else
      var before, last := Violations(checks[..|checks| - 1], data), checks[|checks| - 1];
      match FaultOf(last, data)
      case None => before
      case Some(reason) => before + [Violation(last.key, reason, last.scope)]
  }

  method ViolationsOf(checks: seq<Check>, data: Payload) returns (violations: seq<Violation>)
    ensures violations == Violations(checks, data)
  {
    violations := [];
    for i := 0 to |checks|
      invariant violations == Violations(checks[..i], data)
    {
      assert checks[..i + 1][..i] == checks[..i];
      var check := checks[i];
      match FaultOf(check, data)
      case None =>
      case Some(reason) => violations := violations + [Violation(check.key, reason, check.scope)];
    }
    assert checks[..|checks|] == checks;
  }

  /** Check `k` is the one that finds this violation. */
  ghost predicate Finds(checks: seq<Check>, data: Payload, v: Violation, k: int) {
    && 0 <= k < |checks|
    && v.key == checks[k].key
    && v.scope == checks[k].scope
    && FaultOf(checks[k], data) == Some(v.reason)
  }

  /** The list names exactly the checks that fail. */
  lemma {:induction false} ViolationsAreFaults(checks: seq<Check>, data: Payload, v: Violation)
    ensures v in Violations(checks, data) <==> exists k :: Finds(checks, data, v, k)
  {
    if checks != [] {
      var n := |checks| - 1;
      ViolationsAreFaults(checks[..n], data, v);
      if v in Violations(checks[..n], data) {
        var k :| Finds(checks[..n], data, v, k);
        assert Finds(checks, data, v, k);
      } else if v in Violations(checks, data) {
        assert Finds(checks, data, v, n);
      }
      if k :| Finds(checks, data, v, k) {
        assert k < n ==> Finds(checks[..n], data, v, k);
      }
    }
  }

  function Validate(data: Payload, metadata: Payload): seq<Violation> {
    Violations(TELEMETRY_CHECKS, data) + Violations(METADATA_CHECKS, metadata)
  }

  /** The scopes at least one telemetry field stopped vouching for. */
  function UntrustedScopes(data: Payload): set<Scope> {
    set v | v in Violations(TELEMETRY_CHECKS, data) && v.scope.Safety? :: v.scope.scope
  }

  // ---- Decoding ----

  /** A read that may throw. */
  datatype Read<+T> = Got(value: T) | Throws {
    predicate IsFailure() {
      Throws?
    }

    function PropagateFailure<U>(): Read<U>
      requires IsFailure()
    {
      Throws
    }

    function Extract(): T
      requires Got?
    {
      value
    }
  }

  function BooleanField(data: Payload, key: Key): Read<bool> {
    if key in data && data[key].Flag? then Got(data[key].flag) else Throws
  }

  function NumberField(data: Payload, key: Key): Read<real> {
    if key in data && data[key].Number? then Got(data[key].number) else Throws
  }

  function OptionalNumberField(data: Payload, key: Key): Read<Option<real>> {
    if key !in data then Got(None)
    else
      var number :- NumberField(data, key);
      Got(Some(number))
  }

  function OptionalTextField(data: Payload, key: Key): Read<Option<string>> {
    if key !in data then Got(None)
    else if data[key].Text? then Got(Some(data[key].text))
    else Throws
  }

  function WaterLevelPercentage(code: real): Read<int> {
    if code == 0.0 then Got(0)
    else if code == 1.0 then Got(20)
    else if code == 3.0 then Got(40)
    else if code == 7.0 then Got(60)
    else if code == 15.0 then Got(80)
    else if code == 31.0 then Got(100)
    else Throws
  }

  function ProtectionHoursPercentage(code: real): Read<int> {
    if code == 1.0 then Got(25)
    else if code == 2.0 then Got(50)
    else if code == 4.0 then Got(75)
    else if code == 8.0 then Got(100)
    else Throws
  }

  datatype WaterState = WaterState(levelCode: real, levelPercent: int, flooded: bool)

  datatype PumpState = PumpState(primaryRunning: bool, backupRunning: bool, backupActivatedAt: Option<real>)

  datatype BatteryState = BatteryState(
    charging: bool,
    voltageLow: bool,
    healthCode: real,
    protectionHoursCode: real,
    levelPercent: int,
    low: bool)

  datatype FaultState = FaultState(
    primaryPumpFault: bool,
    backupPumpFault: bool,
    backupPumpFuseBlown: bool,
    waterSensorFault: bool,
    controllerLinkPresent: bool)

  datatype SelfTestState = SelfTestState(running: bool, testedAt: Option<real>)

  datatype MetadataState = MetadataState(
    mcuFirmwareVersion: Option<string>,
    wifiFirmwareVersion: Option<string>,
    mcuTargetVersion: Option<string>,
    wifiSignalDbm: Option<real>)

  /** One group per scope, absent when the scope did not validate. */
  datatype DomainState = DomainState(
    water: Option<WaterState>,
    pump: Option<PumpState>,
    mainsPresent: Option<bool>,
    battery: Option<BatteryState>,
    fault: Option<FaultState>,
    reportedOffline: Option<bool>,
    selfTest: Option<SelfTestState>,
    alarmMuted: Option<bool>,
    metadata: Option<MetadataState>)

  function DecodeWater(data: Payload): Read<WaterState> {
    var levelCode :- NumberField(data, WaterLevel);
    var levelPercent :- WaterLevelPercentage(levelCode);
    Got(WaterState(levelCode, levelPercent, levelCode >= FLOOD_WATER_LEVEL_CODE))
  }

  function DecodePump(data: Payload): Read<PumpState> {
    var primaryRunning :- BooleanField(data, PrimaryPumpRunning);
    var backupRunning :- BooleanField(data, BackupPumpRunning);
    var backupActivatedAt :- OptionalNumberField(data, BackupPumpTimestamp);
    Got(PumpState(primaryRunning, backupRunning, backupActivatedAt))
  }

  function DecodeBattery(data: Payload): Read<BatteryState> {
    var healthCode :- NumberField(data, BatteryHealth);
    var protectionHoursCode :- NumberField(data, HoursOfProtection);
    var voltageLow :- BooleanField(data, BatteryVoltageLow);
    var charging :- BooleanField(data, BatteryCharging);
    var levelPercent :- ProtectionHoursPercentage(protectionHoursCode);
    Got(BatteryState(charging, voltageLow, healthCode, protectionHoursCode, levelPercent,
                     voltageLow || healthCode in LOW_BATTERY_HEALTH_VALUES))
  }

  function DecodeFault(data: Payload): Read<FaultState> {
    var primaryPumpFault :- BooleanField(data, PrimaryPumpFault);
    var backupPumpFault :- BooleanField(data, BackupPumpFault);
    var backupPumpFuseBlown :- BooleanField(data, BackupPumpFuseBlown);
    var waterSensorFault :- BooleanField(data, WaterSensorFault);
    var controllerLinkPresent :- BooleanField(data, SerialCommunications);
    Got(FaultState(primaryPumpFault, backupPumpFault, backupPumpFuseBlown, waterSensorFault, controllerLinkPresent))
  }

  function DecodeSelfTest(data: Payload): Read<SelfTestState> {
    var running :- BooleanField(data, TestRunning);
    var testedAt :- OptionalNumberField(data, TestTimestamp);
    Got(SelfTestState(running, testedAt))
  }

  function DecodeMetadata(metadata: Payload): Read<MetadataState> {
    var mcuFirmwareVersion :- OptionalTextField(metadata, McuFirmwareVersion);
    var wifiFirmwareVersion :- OptionalTextField(metadata, WifiFirmwareVersion);
    var mcuTargetVersion :- OptionalTextField(metadata, McuTargetVersion);
    var wifiSignalDbm :- OptionalNumberField(metadata, WifiSignalDbm);
    Got(MetadataState(mcuFirmwareVersion, wifiFirmwareVersion, mcuTargetVersion, wifiSignalDbm))
  }

  /** A scope's group: absent without being read when the scope is untrusted. */
  function Gated<T>(untrusted: bool, read: Read<T>): Read<Option<T>> {
    if untrusted then Got(None)
    else if read.Got? then Got(Some(read.value))
    else Throws
  }

  function Decode(data: Payload, metadata: Payload): Read<DomainState> {
    var untrusted := UntrustedScopes(data);
    var water :- Gated(Water in untrusted, DecodeWater(data));
    var pump :- Gated(Pump in untrusted, DecodePump(data));
    var mainsPresent :- Gated(Power in untrusted, BooleanField(data, AcPower));
    var battery :- Gated(Battery in untrusted, DecodeBattery(data));
    var fault :- Gated(Fault in untrusted, DecodeFault(data));
    var reportedOffline :- Gated(Connectivity in untrusted, BooleanField(data, Offline));
    var selfTest :- Gated(SelfTest in untrusted, DecodeSelfTest(data));
    var alarmMuted :- Gated(AlarmMute in untrusted, BooleanField(data, AlarmAudioMuted));
    var information :- Gated(Violations(METADATA_CHECKS, metadata) != [], DecodeMetadata(metadata));
    Got(DomainState(water, pump, mainsPresent, battery, fault, reportedOffline, selfTest, alarmMuted, information))
  }

  /** Whether a scope's group decoded. */
  predicate HasGroup(state: DomainState, scope: Scope) {
    match scope
    case Water => state.water.Some?
    case Pump => state.pump.Some?
    case Power => state.mainsPresent.Some?
    case Battery => state.battery.Some?
    case Fault => state.fault.Some?
    case Connectivity => state.reportedOffline.Some?
    case SelfTest => state.selfTest.Some?
    case AlarmMute => state.alarmMuted.Some?
  }

  // ---- What validation promises decoding ----

  /** A scope no violation names passed every check filed under it. */
  lemma TrustedScopePasses(data: Payload, scope: Scope)
    requires scope !in UntrustedScopes(data)
    ensures forall k :: 0 <= k < |TELEMETRY_CHECKS| && TELEMETRY_CHECKS[k].scope == Safety(scope) ==> FaultOf(TELEMETRY_CHECKS[k], data).None?
  {
    forall k | 0 <= k < |TELEMETRY_CHECKS| && TELEMETRY_CHECKS[k].scope == Safety(scope)
      ensures FaultOf(TELEMETRY_CHECKS[k], data).None?
    {
      var check := TELEMETRY_CHECKS[k];
      if FaultOf(check, data).Some? {
        var v := Violation(check.key, FaultOf(check, data).value, check.scope);
        ViolationsAreFaults(TELEMETRY_CHECKS, data, v);
        assert Finds(TELEMETRY_CHECKS, data, v, k);
      }
    }
  }

  lemma WaterDecodes(data: Payload)
    ensures Gated(Water in UntrustedScopes(data), DecodeWater(data)).Got?
  {
    if Water !in UntrustedScopes(data) {
      TrustedScopePasses(data, Water);
      assert FaultOf(TELEMETRY_CHECKS[0], data).None?;
    }
  }

  lemma PumpDecodes(data: Payload)
    ensures Gated(Pump in UntrustedScopes(data), DecodePump(data)).Got?
  {
    if Pump !in UntrustedScopes(data) {
      TrustedScopePasses(data, Pump);
      assert FaultOf(TELEMETRY_CHECKS[1], data).None? && FaultOf(TELEMETRY_CHECKS[3], data).None? && FaultOf(TELEMETRY_CHECKS[6], data).None?;
    }
  }

  lemma BatteryDecodes(data: Payload)
    ensures Gated(Battery in UntrustedScopes(data), DecodeBattery(data)).Got?
  {
    if Battery !in UntrustedScopes(data) {
      TrustedScopePasses(data, Battery);
      assert FaultOf(TELEMETRY_CHECKS[8], data).None? && FaultOf(TELEMETRY_CHECKS[9], data).None?;
      assert FaultOf(TELEMETRY_CHECKS[10], data).None? && FaultOf(TELEMETRY_CHECKS[11], data).None?;
    }
  }

  lemma FaultDecodes(data: Payload)
    ensures Gated(Fault in UntrustedScopes(data), DecodeFault(data)).Got?
  {
    if Fault !in UntrustedScopes(data) {
      TrustedScopePasses(data, Fault);
      assert FaultOf(TELEMETRY_CHECKS[2], data).None? && FaultOf(TELEMETRY_CHECKS[4], data).None? && FaultOf(TELEMETRY_CHECKS[5], data).None?;
      assert FaultOf(TELEMETRY_CHECKS[12], data).None? && FaultOf(TELEMETRY_CHECKS[13], data).None?;
    }
  }

  lemma SelfTestDecodes(data: Payload)
    ensures Gated(SelfTest in UntrustedScopes(data), DecodeSelfTest(data)).Got?
  {
    if SelfTest !in UntrustedScopes(data) {
      TrustedScopePasses(data, SelfTest);
      assert FaultOf(TELEMETRY_CHECKS[15], data).None? && FaultOf(TELEMETRY_CHECKS[16], data).None?;
    }
  }

  lemma FlagsDecode(data: Payload)
    ensures Gated(Power in UntrustedScopes(data), BooleanField(data, AcPower)).Got?
    ensures Gated(AlarmMute in UntrustedScopes(data), BooleanField(data, AlarmAudioMuted)).Got?
    ensures Gated(Connectivity in UntrustedScopes(data), BooleanField(data, Offline)).Got?
  {
    if Power !in UntrustedScopes(data) {
      TrustedScopePasses(data, Power);
      assert FaultOf(TELEMETRY_CHECKS[7], data).None?;
    }
    if AlarmMute !in UntrustedScopes(data) {
      TrustedScopePasses(data, AlarmMute);
      assert FaultOf(TELEMETRY_CHECKS[14], data).None?;
    }
    if Connectivity !in UntrustedScopes(data) {
      TrustedScopePasses(data, Connectivity);
      assert FaultOf(TELEMETRY_CHECKS[17], data).None?;
    }
  }

  lemma MetadataPasses(metadata: Payload)
    requires Violations(METADATA_CHECKS, metadata) == []
    ensures forall k :: 0 <= k < |METADATA_CHECKS| ==> FaultOf(METADATA_CHECKS[k], metadata).None?
  {
    forall k | 0 <= k < |METADATA_CHECKS|
      ensures FaultOf(METADATA_CHECKS[k], metadata).None?
    {
      var check := METADATA_CHECKS[k];
      if FaultOf(check, metadata).Some? {
        var v := Violation(check.key, FaultOf(check, metadata).value, check.scope);
        ViolationsAreFaults(METADATA_CHECKS, metadata, v);
        assert Finds(METADATA_CHECKS, metadata, v, k);
      }
    }
  }

  lemma MetadataDecodes(metadata: Payload)
    ensures Gated(Violations(METADATA_CHECKS, metadata) != [], DecodeMetadata(metadata)).Got?
  {
    if Violations(METADATA_CHECKS, metadata) == [] {
      MetadataPasses(metadata);
      assert FaultOf(METADATA_CHECKS[0], metadata).None? && FaultOf(METADATA_CHECKS[1], metadata).None?;
      assert FaultOf(METADATA_CHECKS[2], metadata).None? && FaultOf(METADATA_CHECKS[3], metadata).None?;
    }
  }

  /** Decoding never throws, whatever the payload. */
  lemma DecodeNeverThrows(data: Payload, metadata: Payload)
    ensures Decode(data, metadata).Got?
  {
    WaterDecodes(data);
    PumpDecodes(data);
    BatteryDecodes(data);
    FaultDecodes(data);
    SelfTestDecodes(data);
    FlagsDecode(data);
    MetadataDecodes(metadata);
  }

  /** The gates in front of the decoders decide which groups are there. */
  lemma GatesDecidePresence(data: Payload, metadata: Payload)
    ensures Decode(data, metadata).Got?
    ensures forall scope :: HasGroup(Decode(data, metadata).value, scope) <==> scope !in UntrustedScopes(data)
    ensures Decode(data, metadata).value.metadata.Some? <==> Violations(METADATA_CHECKS, metadata) == []
  {
    DecodeNeverThrows(data, metadata);
  }

  lemma ScopeIsNamed(data: Payload, metadata: Payload, scope: Scope)
    ensures scope in UntrustedScopes(data) <==> exists v :: v in Validate(data, metadata) && v.scope == Safety(scope)
  {
    if scope in UntrustedScopes(data) {
      var v :| v in Violations(TELEMETRY_CHECKS, data) && v.scope == Safety(scope);
      assert v in Validate(data, metadata);
    }
    forall v | v in Violations(METADATA_CHECKS, metadata) ensures v.scope == Metadata {
      ViolationsAreFaults(METADATA_CHECKS, metadata, v);
    }
  }

  lemma MetadataIsNamed(data: Payload, metadata: Payload)
    ensures Violations(METADATA_CHECKS, metadata) != [] <==> exists v :: v in Validate(data, metadata) && v.scope == Metadata
  {
    if Violations(METADATA_CHECKS, metadata) != [] {
      var v := Violations(METADATA_CHECKS, metadata)[0];
      ViolationsAreFaults(METADATA_CHECKS, metadata, v);
      assert v in Validate(data, metadata);
    }
    forall v | v in Violations(TELEMETRY_CHECKS, data) ensures v.scope.Safety? {
      ViolationsAreFaults(TELEMETRY_CHECKS, data, v);
    }
  }

  /**
   * For every payload, decoding answers, and a scope's group is absent exactly when
   * validation names a violation in that scope; the metadata group is absent exactly
   * when validation names a metadata violation.
   */
  lemma ValidationAndDecodingAgree(data: Payload, metadata: Payload, scope: Scope)
    ensures Decode(data, metadata).Got?
    ensures !HasGroup(Decode(data, metadata).value, scope) <==> exists v :: v in Validate(data, metadata) && v.scope == Safety(scope)
    ensures Decode(data, metadata).value.metadata.None? <==> exists v :: v in Validate(data, metadata) && v.scope == Metadata
  {
    GatesDecidePresence(data, metadata);
    ScopeIsNamed(data, metadata, scope);
    MetadataIsNamed(data, metadata);
  }

  // ---- Which payloads are trusted ----

  /** The level code is a thermometer: its lowest bits are set, one for each fifth of the pit. */
  function Thermometer(fifths: nat): nat {
    if fifths == 0 then 0 else 2 * Thermometer(fifths - 1) + 1
  }

  ghost predicate IsThermometer(code: real) {
    exists n: nat :: n <= 5 && code == Thermometer(n) as real
  }

  /** The battery codes are single bits. */
  function PowerOfTwo(n: nat): nat {
    if n == 0 then 1 else 2 * PowerOfTwo(n - 1)
  }

  ghost predicate IsPowerOfTwo(code: real, highest: nat) {
    exists n: nat :: n <= highest && code == PowerOfTwo(n) as real
  }

  predicate IsFlag(data: Payload, key: Key) {
    key in data && data[key].Flag?
  }

  predicate IsNumberIfThere(data: Payload, key: Key) {
    key in data ==> data[key].Number?
  }

  predicate IsTextIfThere(data: Payload, key: Key) {
    key in data ==> data[key].Text?
  }

  /** A scope's own fields are what the vendor documents them to be, field by field. */
  ghost predicate Legible(data: Payload, scope: Scope) {
    match scope
    case Water => WaterLevel in data && data[WaterLevel].Number? && IsThermometer(data[WaterLevel].number)
    case Pump => IsFlag(data, PrimaryPumpRunning) && IsFlag(data, BackupPumpRunning) && IsNumberIfThere(data, BackupPumpTimestamp)
    case Power => IsFlag(data, AcPower)
    case Battery =>
      && IsFlag(data, BatteryCharging) && IsFlag(data, BatteryVoltageLow)
      && BatteryHealth in data && data[BatteryHealth].Number? && IsPowerOfTwo(data[BatteryHealth].number, 5)
      && HoursOfProtection in data && data[HoursOfProtection].Number? && IsPowerOfTwo(data[HoursOfProtection].number, 3)
    case Fault =>
      && IsFlag(data, PrimaryPumpFault) && IsFlag(data, BackupPumpFault) && IsFlag(data, BackupPumpFuseBlown)
      && IsFlag(data, WaterSensorFault) && IsFlag(data, SerialCommunications)
    case Connectivity => IsFlag(data, Offline)
    case SelfTest => IsFlag(data, TestRunning) && IsNumberIfThere(data, TestTimestamp)
    case AlarmMute => IsFlag(data, AlarmAudioMuted)
  }

  lemma LevelCodes(code: real)
    ensures code in WATER_LEVEL_VALUES <==> IsThermometer(code)
  {
    assert Thermometer(0) == 0 && Thermometer(1) == 1 && Thermometer(2) == 3;
    assert Thermometer(3) == 7 && Thermometer(4) == 15 && Thermometer(5) == 31;
  }

  lemma BatteryCodes(code: real)
    ensures code in BATTERY_HEALTH_VALUES <==> IsPowerOfTwo(code, 5)
    ensures code in HOURS_OF_PROTECTION_VALUES <==> IsPowerOfTwo(code, 3)
  {
    assert PowerOfTwo(0) == 1 && PowerOfTwo(1) == 2 && PowerOfTwo(2) == 4;
    assert PowerOfTwo(3) == 8 && PowerOfTwo(4) == 16 && PowerOfTwo(5) == 32;
  }

  /** The checks filed under a scope, by their place in the table. */
  lemma ScopePassesExactlyWhen(data: Payload, scope: Scope)
    ensures scope !in UntrustedScopes(data) <==>
              forall k :: 0 <= k < |TELEMETRY_CHECKS| && TELEMETRY_CHECKS[k].scope == Safety(scope) ==> FaultOf(TELEMETRY_CHECKS[k], data).None?
  {
    if scope !in UntrustedScopes(data) {
      TrustedScopePasses(data, scope);
    } else {
      var v :| v in Violations(TELEMETRY_CHECKS, data) && v.scope == Safety(scope);
      ViolationsAreFaults(TELEMETRY_CHECKS, data, v);
      var k :| Finds(TELEMETRY_CHECKS, data, v, k);
      assert FaultOf(TELEMETRY_CHECKS[k], data).Some?;
    }
  }

  lemma ChecksOf(data: Payload, scope: Scope, places: set<nat>)
    requires forall k :: 0 <= k < |TELEMETRY_CHECKS| ==> (TELEMETRY_CHECKS[k].scope == Safety(scope) <==> k in places)
    requires forall k :: k in places ==> k < |TELEMETRY_CHECKS|
    ensures scope !in UntrustedScopes(data) <==> forall k :: k in places ==> FaultOf(TELEMETRY_CHECKS[k], data).None?
  {
    ScopePassesExactlyWhen(data, scope);
  }

  lemma BatteryIsTrustedExactlyWhen(data: Payload)
    ensures Battery !in UntrustedScopes(data) <==> Legible(data, Battery)
  {
    ChecksOf(data, Battery, {8, 9, 10, 11});
    if BatteryHealth in data && data[BatteryHealth].Number? {
      BatteryCodes(data[BatteryHealth].number);
    }
    if HoursOfProtection in data && data[HoursOfProtection].Number? {
      BatteryCodes(data[HoursOfProtection].number);
    }
  }

  lemma WaterIsTrustedExactlyWhen(data: Payload)
    ensures Water !in UntrustedScopes(data) <==> Legible(data, Water)
  {
    ChecksOf(data, Water, {0});
    if WaterLevel in data && data[WaterLevel].Number? {
      LevelCodes(data[WaterLevel].number);
    }
  }

  /**
   * A scope is trusted exactly when its own fields are legible: the flags are there
   * and boolean, the level is a thermometer code, the battery codes are single bits,
   * and a timestamp is a number where there is one.
   */
  lemma TrustedExactlyWhenLegible(data: Payload, scope: Scope)
    ensures scope !in UntrustedScopes(data) <==> Legible(data, scope)
  {
    match scope
    case Water => WaterIsTrustedExactlyWhen(data);
    case Pump => ChecksOf(data, Pump, {1, 3, 6});
    case Power => ChecksOf(data, Power, {7});
    case Battery => BatteryIsTrustedExactlyWhen(data);
    case Fault => ChecksOf(data, Fault, {2, 4, 5, 12, 13});
    case Connectivity => ChecksOf(data, Connectivity, {17});
    case SelfTest => ChecksOf(data, SelfTest, {15, 16});
    case AlarmMute => ChecksOf(data, AlarmMute, {14});
  }

  /** The metadata is taken whole or not at all: each field is absent or of its type. */
  lemma MetadataIsTakenExactlyWhen(metadata: Payload)
    ensures Violations(METADATA_CHECKS, metadata) == [] <==>
              && IsNumberIfThere(metadata, WifiSignalDbm) && IsTextIfThere(metadata, McuFirmwareVersion)
              && IsTextIfThere(metadata, WifiFirmwareVersion) && IsTextIfThere(metadata, McuTargetVersion)
  {
    if Violations(METADATA_CHECKS, metadata) == [] {
      MetadataPasses(metadata);
      assert FaultOf(METADATA_CHECKS[0], metadata).None? && FaultOf(METADATA_CHECKS[1], metadata).None?;
      assert FaultOf(METADATA_CHECKS[2], metadata).None? && FaultOf(METADATA_CHECKS[3], metadata).None?;
    } else {
      var v := Violations(METADATA_CHECKS, metadata)[0];
      ViolationsAreFaults(METADATA_CHECKS, metadata, v);
      var k :| Finds(METADATA_CHECKS, metadata, v, k);
      assert FaultOf(METADATA_CHECKS[k], metadata).Some?;
    }
  }

  // ---- One bad field costs one scope ----

  /** Two payloads that agree on every field filed under a scope. */
  ghost predicate AgreeOn(data: Payload, other: Payload, scope: Scope) {
    forall k :: 0 <= k < |TELEMETRY_CHECKS| && TELEMETRY_CHECKS[k].scope == Safety(scope) ==>
      var key := TELEMETRY_CHECKS[k].key;
      (key in data <==> key in other) && (key in data ==> data[key] == other[key])
  }

  /** What a scope decodes to, as one value. */
  function GroupOf(state: DomainState, scope: Scope): DomainState {
    DomainState(if scope.Water? then state.water else None,
                if scope.Pump? then state.pump else None,
                if scope.Power? then state.mainsPresent else None,
                if scope.Battery? then state.battery else None,
                if scope.Fault? then state.fault else None,
                if scope.Connectivity? then state.reportedOffline else None,
                if scope.SelfTest? then state.selfTest else None,
                if scope.AlarmMute? then state.alarmMuted else None,
                None)
  }

  lemma AgreeingPayloadsAreTrustedAlike(data: Payload, other: Payload, scope: Scope)
    requires AgreeOn(data, other, scope)
    ensures scope in UntrustedScopes(data) ==> scope in UntrustedScopes(other)
  {
    if scope in UntrustedScopes(data) {
      var v :| v in Violations(TELEMETRY_CHECKS, data) && v.scope == Safety(scope);
      ViolationsAreFaults(TELEMETRY_CHECKS, data, v);
      var k :| Finds(TELEMETRY_CHECKS, data, v, k);
      assert Finds(TELEMETRY_CHECKS, other, v, k);
      ViolationsAreFaults(TELEMETRY_CHECKS, other, v);
      assert v in Violations(TELEMETRY_CHECKS, other);
    }
  }

  /** What a scope's own decoder reads. */
  function ReadGroup(data: Payload, scope: Scope): Read<DomainState> {
    var none := DomainState(None, None, None, None, None, None, None, None, None);
    match scope
    case Water => (var group :- DecodeWater(data); Got(none.(water := Some(group))))
    case Pump => (var group :- DecodePump(data); Got(none.(pump := Some(group))))
    case Power => (var group :- BooleanField(data, AcPower); Got(none.(mainsPresent := Some(group))))
    case Battery => (var group :- DecodeBattery(data); Got(none.(battery := Some(group))))
    case Fault => (var group :- DecodeFault(data); Got(none.(fault := Some(group))))
    case Connectivity => (var group :- BooleanField(data, Offline); Got(none.(reportedOffline := Some(group))))
    case SelfTest => (var group :- DecodeSelfTest(data); Got(none.(selfTest := Some(group))))
    case AlarmMute => (var group :- BooleanField(data, AlarmAudioMuted); Got(none.(alarmMuted := Some(group))))
  }

  lemma SameField(data: Payload, other: Payload, scope: Scope, k: nat)
    requires AgreeOn(data, other, scope)
    requires k < |TELEMETRY_CHECKS| && TELEMETRY_CHECKS[k].scope == Safety(scope)
    ensures var key := TELEMETRY_CHECKS[k].key; BooleanField(data, key) == BooleanField(other, key)
    ensures var key := TELEMETRY_CHECKS[k].key; NumberField(data, key) == NumberField(other, key)
    ensures var key := TELEMETRY_CHECKS[k].key; OptionalNumberField(data, key) == OptionalNumberField(other, key)
  {
  }

  lemma AgreeingPayloadsReadAlike(data: Payload, other: Payload, scope: Scope)
    requires AgreeOn(data, other, scope)
    ensures ReadGroup(data, scope) == ReadGroup(other, scope)
  {
    match scope
    case Water => SameField(data, other, scope, 0);
    case Pump =>
      SameField(data, other, scope, 1);
      SameField(data, other, scope, 3);
      SameField(data, other, scope, 6);
    case Power => SameField(data, other, scope, 7);
    case Battery =>
      SameField(data, other, scope, 8);
      SameField(data, other, scope, 9);
      SameField(data, other, scope, 10);
      SameField(data, other, scope, 11);
    case Fault => AgreeingFaultsReadAlike(data, other);
    case Connectivity => SameField(data, other, scope, 17);
    case SelfTest =>
      SameField(data, other, scope, 15);
      SameField(data, other, scope, 16);
    case AlarmMute => SameField(data, other, scope, 14);
  }

  lemma AgreeingFaultsReadAlike(data: Payload, other: Payload)
    requires AgreeOn(data, other, Fault)
    ensures DecodeFault(data) == DecodeFault(other)
  {
    SameField(data, other, Fault, 2);
    SameField(data, other, Fault, 4);
    SameField(data, other, Fault, 5);
    SameField(data, other, Fault, 12);
    SameField(data, other, Fault, 13);
  }

  lemma GroupIsItsOwnRead(data: Payload, metadata: Payload, scope: Scope)
    ensures Decode(data, metadata).Got?
    ensures scope in UntrustedScopes(data) ==>
              GroupOf(Decode(data, metadata).value, scope) == DomainState(None, None, None, None, None, None, None, None, None)
    ensures scope !in UntrustedScopes(data) ==> ReadGroup(data, scope) == Got(GroupOf(Decode(data, metadata).value, scope))
  {
    DecodeNeverThrows(data, metadata);
  }

  /**
   * A scope's group depends on the fields filed under that scope and on nothing
   * else: whatever happens to any other field, or to a key the family does not read,
   * the group is the same, present or absent.
   */
  lemma OneBadFieldCostsOneScope(data: Payload, other: Payload, metadata: Payload, otherMetadata: Payload, scope: Scope)
    requires AgreeOn(data, other, scope)
    ensures Decode(data, metadata).Got? && Decode(other, otherMetadata).Got?
    ensures GroupOf(Decode(data, metadata).value, scope) == GroupOf(Decode(other, otherMetadata).value, scope)
  {
    GroupIsItsOwnRead(data, metadata, scope);
    GroupIsItsOwnRead(other, otherMetadata, scope);
    AgreeingPayloadsAreTrustedAlike(data, other, scope);
    assert AgreeOn(other, data, scope);
    AgreeingPayloadsAreTrustedAlike(other, data, scope);
    AgreeingPayloadsReadAlike(data, other, scope);
  }

  // ---- What a decoded group says ----

  function FlagAt(data: Payload, key: Key): bool {
    key in data && data[key] == Flag(true)
  }

  function NumberAt(data: Payload, key: Key): real {
    if key in data && data[key].Number? then data[key].number else -1.0
  }

  function OptionalNumberAt(data: Payload, key: Key): Option<real> {
    if key in data && data[key].Number? then Some(data[key].number) else None
  }

  lemma {:induction false} LevelsAreThermometers(code: real)
    ensures WaterLevelPercentage(code).Got? <==> IsThermometer(code)
    ensures WaterLevelPercentage(code).Got? ==> exists n: nat :: n <= 5 && code == Thermometer(n) as real && WaterLevelPercentage(code) == Got(20 * n)
  {
    assert Thermometer(0) == 0 && Thermometer(1) == 1 && Thermometer(2) == 3;
    assert Thermometer(3) == 7 && Thermometer(4) == 15 && Thermometer(5) == 31;
  }

  /** The hours code is one bit, worth a quarter of the battery for each place it stands at. */
  lemma {:induction false} HoursAreSingleBits(code: real)
    ensures ProtectionHoursPercentage(code).Got? <==> IsPowerOfTwo(code, 3)
    ensures ProtectionHoursPercentage(code).Got? ==>
              exists n: nat :: n <= 3 && code == PowerOfTwo(n) as real && ProtectionHoursPercentage(code) == Got(25 * (n + 1))
  {
    assert PowerOfTwo(0) == 1 && PowerOfTwo(1) == 2 && PowerOfTwo(2) == 4 && PowerOfTwo(3) == 8;
  }

  lemma WaterSays(data: Payload, metadata: Payload)
    requires Water !in UntrustedScopes(data)
    ensures Decode(data, metadata).Got?
    ensures var water := Decode(data, metadata).value.water;
            && water.Some?
            && water.value.levelCode == NumberAt(data, Key.WaterLevel)
            && WaterLevelPercentage(NumberAt(data, Key.WaterLevel)) == Got(water.value.levelPercent)
            && (water.value.flooded <==> water.value.levelPercent == 100)
  {
    GroupIsItsOwnRead(data, metadata, Water);
    TrustedScopePasses(data, Water);
    assert FaultOf(TELEMETRY_CHECKS[0], data).None?;
  }

  lemma PumpSays(data: Payload, metadata: Payload)
    requires Pump !in UntrustedScopes(data)
    ensures Decode(data, metadata).Got?
    ensures Decode(data, metadata).value.pump ==
              Some(PumpState(FlagAt(data, PrimaryPumpRunning), FlagAt(data, BackupPumpRunning), OptionalNumberAt(data, BackupPumpTimestamp)))
  {
    GroupIsItsOwnRead(data, metadata, Pump);
    PumpDecodes(data);
  }

  lemma BatterySays(data: Payload, metadata: Payload)
    requires Battery !in UntrustedScopes(data)
    ensures Decode(data, metadata).Got?
    ensures var battery := Decode(data, metadata).value.battery;
            && battery.Some?
            && battery.value.charging == FlagAt(data, BatteryCharging)
            && battery.value.voltageLow == FlagAt(data, BatteryVoltageLow)
            && battery.value.healthCode == NumberAt(data, BatteryHealth)
            && battery.value.protectionHoursCode == NumberAt(data, HoursOfProtection)
            && ProtectionHoursPercentage(NumberAt(data, HoursOfProtection)) == Got(battery.value.levelPercent)
            && (battery.value.low <==> FlagAt(data, BatteryVoltageLow) || NumberAt(data, BatteryHealth) in LOW_BATTERY_HEALTH_VALUES)
  {
    GroupIsItsOwnRead(data, metadata, Battery);
    BatteryDecodes(data);
  }

  lemma FaultSays(data: Payload, metadata: Payload)
    requires Fault !in UntrustedScopes(data)
    ensures Decode(data, metadata).Got?
    ensures Decode(data, metadata).value.fault ==
              Some(FaultState(FlagAt(data, PrimaryPumpFault), FlagAt(data, BackupPumpFault), FlagAt(data, BackupPumpFuseBlown),
                              FlagAt(data, WaterSensorFault), FlagAt(data, SerialCommunications)))
  {
    GroupIsItsOwnRead(data, metadata, Fault);
    FaultDecodes(data);
  }

  lemma FlagsSay(data: Payload, metadata: Payload)
    ensures Decode(data, metadata).Got?
    ensures Power !in UntrustedScopes(data) ==> Decode(data, metadata).value.mainsPresent == Some(FlagAt(data, AcPower))
    ensures AlarmMute !in UntrustedScopes(data) ==> Decode(data, metadata).value.alarmMuted == Some(FlagAt(data, AlarmAudioMuted))
    ensures SelfTest !in UntrustedScopes(data) ==>
              Decode(data, metadata).value.selfTest == Some(SelfTestState(FlagAt(data, TestRunning), OptionalNumberAt(data, TestTimestamp)))
  {
    GroupIsItsOwnRead(data, metadata, Power);
    GroupIsItsOwnRead(data, metadata, AlarmMute);
    GroupIsItsOwnRead(data, metadata, SelfTest);
    FlagsDecode(data);
    SelfTestDecodes(data);
  }

  function TextAt(data: Payload, key: Key): Option<string> {
    if key in data && data[key].Text? then Some(data[key].text) else None
  }

  /** Metadata that is taken is its four vendor fields, each where it is there. */
  lemma MetadataSays(data: Payload, metadata: Payload)
    requires Violations(METADATA_CHECKS, metadata) == []
    ensures Decode(data, metadata).Got?
    ensures Decode(data, metadata).value.metadata ==
              Some(MetadataState(TextAt(metadata, McuFirmwareVersion), TextAt(metadata, WifiFirmwareVersion), TextAt(metadata, McuTargetVersion),
                                 OptionalNumberAt(metadata, WifiSignalDbm)))
  {
    DecodeNeverThrows(data, metadata);
    MetadataIsTakenExactlyWhen(metadata);
  }
}
