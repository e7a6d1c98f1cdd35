/**
 * What each tile of an accessory carries (`src/accessories/serviceCatalogue.ts`): the
 * whole of it when everything is legible, what a refresh leaves on it, and what a
 * waiting request withholds.
 */
module AccessoryTiles {
  import opened Wrappers
  import opened Gemini
  import opened Trust
  import opened ServiceCatalogue
  import opened BasementGuardian
  import PumpRecords

  /** What a tile carries of its own scope, whatever else is in doubt. */
  function OwnValues(kind: Kind): set<Characteristic> {
    match kind
    case SumpPitFlood => {LeakDetected}
    case SumpPitLevel => {Characteristic.WaterLevel, RawWaterLevelCode}
    case PrimaryPump => {PumpRunning}
    case BackupPump => {PumpRunning}
    case PrimaryPumpActivity => {ContactSensorState}
    case BackupPumpActivity => {ContactSensorState}
    case SumpMainsPower => {MainsPowerPresent}
    case MainsPowerLost => {ContactSensorState, StatusFault}
    case BackupBatteryLevel => {StatusLowBattery, BatteryLevel, ChargingState}
    case BackupBattery => {Characteristic.BatteryCharging, Characteristic.BatteryVoltageLow, BatteryHealthCode, ProtectionHoursCode}
    case ControllerLinkAlert => {ContactSensorState, StatusFault, ControllerLinkPresent, ControllerDataLastTrustedAt}
    case SystemSelfTest => {On}
    case AlarmMuteSwitch => {On}
    case OfflineAlert => {ContactSensorState}
    case _ => {ContactSensorState, StatusFault}
  }

  /** What it carries of the fault group beside it, and what a pump tile carries of its own record. */
  function FaultValues(kind: Kind): set<Characteristic> {
    match kind
    case SumpPitLevel => {WaterSensorFaultReported, StatusFault}
    case PrimaryPump => {PumpFault, StatusFault}
    case BackupPump => {PumpFault, PumpFuseBlown, StatusFault}
    case _ => {}
  }

  function RecordValues(kind: Kind, records: PumpRecords.Record): set<Characteristic> {
    if !(kind.PrimaryPump? || kind.BackupPump?) then {}
    else
      {ObservationStartedAt, ObservedActivationCount, LastObservedActivationAt}
      + if kind.BackupPump? && records.backup.testActivity.Some? then {LastActivationWasTestActivity} else {}
  }

  /** Every scope of the payload is legible, and its fault group says the controller link is up. */
  ghost predicate AllLegible(data: Payload) {
    (forall scope: Scope :: Legible(data, scope)) && !FlagIsDown(data)
  }

  predicate FlagIsDown(data: Payload) {
    SerialCommunications in data && data[SerialCommunications].Flag? && !data[SerialCommunications].flag
  }

  lemma NothingIsInDoubt(s: Accessory, settings: Settings, e: Event)
    requires e.Update? && AllLegible(e.snapshot.data)
    ensures forall kind, scope :: IsPublishable(kind, scope, InputFor(s, settings, e).untrusted)
    ensures forall scope: Scope :: scope !in UntrustedScopes(e.snapshot.data)
  {
    forall kind, scope ensures IsPublishable(kind, scope, InputFor(s, settings, e).untrusted) {
      DoubtIsWithheld(s, settings, e, kind, scope);
    }
    forall scope: Scope ensures scope !in UntrustedScopes(e.snapshot.data) {
      TrustedExactlyWhenLegible(e.snapshot.data, scope);
    }
  }

  function TileSource(kind: Kind, c: Characteristic): Option<Scope> {
    if kind.OfflineAlert? || c.ControllerDataLastTrustedAt? then None
    else if c in OwnValues(kind) then Some(ScopeOf(kind))
    else if c in FaultValues(kind) then Some(Fault)
    else None
  }

  lemma SourcesOfMixedTiles(kind: Kind, c: Characteristic)
    requires kind.SumpPitLevel? || kind.PrimaryPump? || kind.BackupPump?
    ensures SourceOf(kind, c) == TileSource(kind, c)
  {
  }

  lemma SourcesOfPlainTiles(kind: Kind, c: Characteristic)
    requires kind in {SumpPitFlood, PrimaryPumpActivity, BackupPumpActivity, SumpMainsPower, MainsPowerLost, BackupBatteryLevel, BackupBattery}
    ensures SourceOf(kind, c) == TileSource(kind, c)
  {
  }

  /** Each of a tile's values comes from the group the tile files it under. */
  lemma SourcesAreTheTiles(kind: Kind, c: Characteristic)
    ensures SourceOf(kind, c) == TileSource(kind, c)
  {
    if kind.SumpPitLevel? || kind.PrimaryPump? || kind.BackupPump? {
      SourcesOfMixedTiles(kind, c);
    } else if kind in {SumpPitFlood, PrimaryPumpActivity, BackupPumpActivity, SumpMainsPower, MainsPowerLost, BackupBatteryLevel, BackupBattery} {
      SourcesOfPlainTiles(kind, c);
    }
  }

  /** What a row takes from a state whose every group is there. */
  lemma CandidatesOfAFullState(kind: Kind, c: Characteristic, input: Input, records: PumpRecords.Record)
    requires input.decoded.Some? && (forall scope :: HasGroup(input.decoded.value, scope)) && input.records == Some(records)
    requires forall scope :: IsPublishable(kind, scope, input.untrusted)
    requires kind !in input.pendingControls
    ensures Candidate(kind, c, input).Some? <==> c in OwnValues(kind) + FaultValues(kind) + RecordValues(kind, records)
  {
    SourcesAreTheTiles(kind, c);
    if SourceOf(kind, c).Some? {
      TrustedFactsAreThere(kind, c, input);
    } else if kind.PrimaryPump? || kind.BackupPump? {
      TrustedFactsAreThere(kind, PumpRunning, input);
      RecordsOfAFullState(kind, c, input, records);
    } else if kind.ControllerLinkAlert? {
      TrustedFactsAreThere(kind, ControllerLinkPresent, input);
    }
  }

  lemma RecordsOfAFullState(kind: Kind, c: Characteristic, input: Input, records: PumpRecords.Record)
    requires (kind.PrimaryPump? || kind.BackupPump?) && SourceOf(kind, c).None? && input.records == Some(records)
    requires TrustedFact(kind, PumpRunning, input).Some? && kind !in input.pendingControls
    ensures Candidate(kind, c, input).Some? <==> c in RecordValues(kind, records)
    ensures c !in OwnValues(kind) + FaultValues(kind)
  {
  }

  lemma TrustedFactsAreThere(kind: Kind, c: Characteristic, input: Input)
    requires SourceOf(kind, c).Some? && input.decoded.Some? && HasGroup(input.decoded.value, SourceOf(kind, c).value)
    requires IsPublishable(kind, SourceOf(kind, c).value, input.untrusted)
    ensures TrustedFact(kind, c, input).Some?
  {
    FactsOfAFullState(kind, c, input.decoded.value);
  }

  lemma FactsOfAFullState(kind: Kind, c: Characteristic, state: DomainState)
    requires SourceOf(kind, c).Some? && HasGroup(state, SourceOf(kind, c).value)
    ensures FactOf(kind, c, state).Some?
  {
  }

  /**
   * An update whose every field is legible, with the link up, leaves each row's own tile
   * whole: it carries exactly its own characteristics, those of its fault group and those
   * of its record, unless an unresolved request withholds a control.
   */
  lemma LegibleUpdatesShowWholeTiles(s: Accessory, settings: Settings, e: Event, kind: Kind)
    requires e.Update? && AllLegible(e.snapshot.data) && kind !in settings.suppressed && kind !in e.pending && kind !in s.services
    ensures var services := Step(s, settings, e).services;
            kind in services && services[kind].pushed.Keys == OwnValues(kind) + FaultValues(kind) + RecordValues(kind, e.records)
  {
    LegibleUpdatesProjectWholeTiles(s, settings, e, kind);
    FreshTiles(s, settings, e, kind);
  }

  lemma LegibleUpdatesProjectWholeTiles(s: Accessory, settings: Settings, e: Event, kind: Kind)
    requires e.Update? && AllLegible(e.snapshot.data) && kind !in e.pending
    ensures Project(kind, InputFor(s, settings, e)).Keys == OwnValues(kind) + FaultValues(kind) + RecordValues(kind, e.records)
  {
    NothingIsInDoubt(s, settings, e);
    GatesDecidePresence(e.snapshot.data, e.snapshot.metadata);
    InputsOfUpdates(s, settings, e);
    WholeTiles(kind, InputFor(s, settings, e), e.records);
  }

  lemma InputsOfUpdates(s: Accessory, settings: Settings, e: Event)
    requires e.Update?
    ensures var input := InputFor(s, settings, e);
            input.records == Some(e.records) && input.decoded == Some(Decoded(e.snapshot)) && input.pendingControls == e.pending
  {
  }

  lemma WholeTiles(kind: Kind, input: Input, records: PumpRecords.Record)
    requires input.decoded.Some? && (forall scope :: HasGroup(input.decoded.value, scope)) && input.records == Some(records)
    requires forall scope :: IsPublishable(kind, scope, input.untrusted)
    requires kind !in input.pendingControls
    ensures Project(kind, input).Keys == OwnValues(kind) + FaultValues(kind) + RecordValues(kind, records)
  {
    forall c ensures Candidate(kind, c, input).Some? <==> c in OwnValues(kind) + FaultValues(kind) + RecordValues(kind, records) {
      CandidatesOfAFullState(kind, c, input, records);
    }
  }

  lemma FreshTiles(s: Accessory, settings: Settings, e: Event, kind: Kind)
    requires e.Update? && kind !in settings.suppressed && kind !in s.services && Project(kind, InputFor(s, settings, e)) != map[]
    ensures var services := Step(s, settings, e).services;
            kind in services && services[kind].pushed == Project(kind, InputFor(s, settings, e))
  {
    UpdatesAreAPass(s, settings, e);
    FreshRowsArePublished(s.services, InputFor(s, settings, e), settings.suppressed, kind);
  }

  lemma FreshRowsArePublished(services: Services, input: Input, suppressed: set<Kind>, kind: Kind)
    requires kind !in suppressed && kind !in services && Project(kind, input) != map[]
    ensures var all := AllPublished(services, input, suppressed); kind in all && all[kind].pushed == Project(kind, input)
  {
    assert map[] + Project(kind, input) == Project(kind, input);
  }

  /** A row whose own scope may be published carries all of its own characteristics, whatever its fault group does. */
  lemma OwnValuesAreProjected(kind: Kind, c: Characteristic, input: Input)
    requires c in OwnValues(kind) && !AlwaysPublishes(kind)
    requires input.decoded.Some? && HasGroup(input.decoded.value, ScopeOf(kind)) && IsPublishable(kind, ScopeOf(kind), input.untrusted)
    ensures c in Project(kind, input)
  {
    SourcesAreTheTiles(kind, c);
    if SourceOf(kind, c).Some? {
      TrustedFactsAreThere(kind, c, input);
      assert Candidate(kind, c, input) == TrustedFact(kind, c, input);
    } else if kind.ControllerLinkAlert? {
      TrustedFactsAreThere(kind, ControllerLinkPresent, input);
      assert Candidate(kind, c, input).Some?;
    } else {
      assert Candidate(kind, c, input).Some?;
    }
  }

  /**
   * A service that an update adds, other than the two controls, carries every
   * characteristic of its own scope from the start, and so all that HomeKit would
   * otherwise show at a default.
   */
  lemma AddedServicesCarryTheirOwn(s: Accessory, settings: Settings, e: Event, kind: Kind)
    requires kind !in s.services && kind in Step(s, settings, e).services && !AlwaysPublishes(kind)
    ensures OwnValues(kind) <= Step(s, settings, e).services[kind].pushed.Keys
    ensures Required(kind) <= OwnValues(kind)
  {
    RequiredValuesAreOwn(kind);
    AddedServicesAreComplete(s, settings, e, kind);
    RowsAreThereExactlyWhen(s, settings, e, kind);
    AddedRowsProjectTheirOwn(s, settings, e, kind);
    FreshTiles(s, settings, e, kind);
  }

  lemma RequiredValuesAreOwn(kind: Kind)
    ensures Required(kind) <= OwnValues(kind) && OwnValues(kind) != {}
  {
    assert CharacteristicOf(kind, ScopeOf(kind)) in OwnValues(kind);
  }

  lemma AddedRowsProjectTheirOwn(s: Accessory, settings: Settings, e: Event, kind: Kind)
    requires e.Update? && !AlwaysPublishes(kind) && !PutsInDoubt(e, kind, ScopeOf(kind), s.monitoring)
    ensures OwnValues(kind) <= Project(kind, InputFor(s, settings, e)).Keys && Project(kind, InputFor(s, settings, e)) != map[]
  {
    RequiredValuesAreOwn(kind);
    DoubtIsWithheld(s, settings, e, kind, ScopeOf(kind));
    InputsOfUpdates(s, settings, e);
    TrustedExactlyWhenLegible(e.snapshot.data, ScopeOf(kind));
    GatesDecidePresence(e.snapshot.data, e.snapshot.metadata);
    forall c | c in OwnValues(kind) ensures c in Project(kind, InputFor(s, settings, e)) {
      OwnValuesAreProjected(kind, c, InputFor(s, settings, e));
    }
  }

  // ---- What a waiting request withholds ----

  /** While a request is unresolved no pass moves what its switch serves, whatever the device reports. */
  lemma PendingSwitchesStandStill(s: Accessory, settings: Settings, e: Event, kind: Kind)
    requires AlwaysPublishes(kind) && kind in s.services && kind !in settings.suppressed
    requires (e.Update? || e.UpdateUnresolved? || e.MarkMonitoring?) && kind in e.pending
    ensures var services := Step(s, settings, e).services;
            kind in services && services[kind].pushed == s.services[kind].pushed
  {
    PendingSwitchesProjectNothing(kind, InputFor(s, settings, e));
    PassesOfNothing(s, settings, e, kind);
  }

  lemma PendingSwitchesProjectNothing(kind: Kind, input: Input)
    requires AlwaysPublishes(kind) && kind in input.pendingControls
    ensures Project(kind, input) == map[]
  {
    forall c ensures Candidate(kind, c, input).None? {
    }
  }

  lemma PassesOfNothing(s: Accessory, settings: Settings, e: Event, kind: Kind)
    requires e.Update? || e.UpdateUnresolved? || e.MarkMonitoring?
    requires kind in s.services && kind !in settings.suppressed && Project(kind, InputFor(s, settings, e)) == map[]
    ensures var services := Step(s, settings, e).services;
            kind in services && services[kind].pushed == s.services[kind].pushed
  {
    if e.Update? {
      UpdatesAreAPass(s, settings, e);
      PublishingNothing(s.services, InputFor(s, settings, e), settings.suppressed, kind);
    } else if Refreshes(s, e) {
      RefreshingNothing(s, settings, e, kind);
    }
  }

  lemma RefreshingNothing(s: Accessory, settings: Settings, e: Event, kind: Kind)
    requires Refreshes(s, e) && kind in s.services && kind !in settings.suppressed && Project(kind, InputFor(s, settings, e)) == map[]
    ensures var services := Step(s, settings, e).services;
            kind in services && services[kind].pushed == s.services[kind].pushed
  {
    RefreshesReachRows(s, settings, e, kind);
    var now := At(Step(s, settings, e).services, kind);
    NothingLands(s.services[kind].pushed, if kind in FailingOf(e) then FailingOf(e)[kind] else {}, now.value.pushed);
  }

  lemma NothingLands(was: map<Characteristic, Reading>, landed: set<Characteristic>, now: map<Characteristic, Reading>)
    requires Landed(was, map[], landed, now)
    ensures now == was
  {
  }

  lemma PublishingNothing(services: Services, input: Input, suppressed: set<Kind>, kind: Kind)
    requires kind in services && kind !in suppressed && Project(kind, input) == map[]
    ensures var all := AllPublished(services, input, suppressed); kind in all && all[kind].pushed == services[kind].pushed
  {
    assert services[kind].pushed + map[] == services[kind].pushed;
  }

  // ---- What a refresh leaves ----

  /** An unresolved update refreshes, and so does a trust push, unless it repeats the trust with nothing owed. */
  predicate Refreshes(s: Accessory, e: Event) {
    e.UpdateUnresolved? || (e.MarkMonitoring? && (e.trust != s.monitoring || s.refreshPending))
  }

  /** The values of a service after some of those projected have landed on it. */
  ghost predicate Landed(was: map<Characteristic, Reading>, projected: map<Characteristic, Reading>, landed: set<Characteristic>, now: map<Characteristic, Reading>) {
    forall c ::
      && (c in now <==> c in was || (c in projected && c in landed))
      && (c in now ==> now[c] == if c in projected && c in landed then projected[c] else was[c])
  }

  /** What a refresh makes of one row: off rows go, rows that throw get what landed, the others get everything and report. */
  ghost predicate RowReached(was: Option<Service>, kind: Kind, input: Input, off: bool, throws: Option<set<Characteristic>>, now: Option<Service>) {
    if was.None? then now.None?
    else if throws.None? && off then now.None?
    else
      var projected := Project(kind, input);
      && now.Some?
      && now.value.active == (if throws.None? then Some(IsFullyTrusted(kind, input.untrusted)) else was.value.active)
      && Landed(was.value.pushed, projected, if throws.None? then projected.Keys else if off then {} else throws.value, now.value.pushed)
  }

  lemma RowsAreReached(services: Services, input: Input, suppressed: set<Kind>, failing: map<Kind, set<Characteristic>>, kind: Kind)
    ensures RowReached(At(services, kind), kind, input, kind in suppressed, if kind in failing then Some(failing[kind]) else None,
                       At(AllRefreshed(services, input, suppressed, failing), kind))
  {
    RowsAreRefreshed(services, input, suppressed, failing, kind);
    OneRowIsReached(At(services, kind), kind, input, suppressed, failing);
  }

  lemma RowsAreRefreshed(services: Services, input: Input, suppressed: set<Kind>, failing: map<Kind, set<Characteristic>>, kind: Kind)
    ensures At(AllRefreshed(services, input, suppressed, failing), kind) == RowRefreshed(At(services, kind), kind, input, suppressed, failing)
  {
  }

  lemma OneRowIsReached(service: Option<Service>, kind: Kind, input: Input, suppressed: set<Kind>, failing: map<Kind, set<Characteristic>>)
    ensures RowReached(service, kind, input, kind in suppressed, if kind in failing then Some(failing[kind]) else None,
                       RowRefreshed(service, kind, input, suppressed, failing))
  {
    if service.Some? && kind in failing && kind !in suppressed {
      PartsLand(service.value, kind, input, failing[kind]);
    } else if service.Some? && kind !in failing {
      AllLands(service.value, kind, input);
    }
  }

  lemma PartsLand(service: Service, kind: Kind, input: Input, landed: set<Characteristic>)
    ensures Landed(service.pushed, Project(kind, input), landed, PushedInPart(service, kind, input, landed).pushed)
  {
  }

  lemma AllLands(service: Service, kind: Kind, input: Input)
    ensures Landed(service.pushed, Project(kind, input), Project(kind, input).Keys, Pushed(service, kind, input).pushed)
  {
  }

  /**
   * A refresh adds no service. A row the owner has turned off is removed; a row HomeKit
   * throws on keeps its trust report and gets only the values that landed before the
   * throw; every other row gets all its values and then reports its trust.
   */
  lemma RefreshesReachRows(s: Accessory, settings: Settings, e: Event, kind: Kind)
    requires Refreshes(s, e)
    ensures RowReached(At(s.services, kind), kind, InputFor(s, settings, e), kind in settings.suppressed,
                       if kind in FailingOf(e) then Some(FailingOf(e)[kind]) else None, At(Step(s, settings, e).services, kind))
  {
    RefreshesAreAPass(s, settings, e);
    RowsAreReached(s.services, InputFor(s, settings, e), settings.suppressed, FailingOf(e), kind);
  }

  lemma RefreshesAreAPass(s: Accessory, settings: Settings, e: Event)
    requires Refreshes(s, e)
    ensures Step(s, settings, e).services == AllRefreshed(s.services, InputFor(s, settings, e), settings.suppressed, FailingOf(e))
    ensures Step(s, settings, e).refreshPending <==> exists kind :: kind in FailingOf(e) && kind in s.services
  {
  }

  /** A trust push nobody needs changes nothing at all. */
  lemma RepeatedPushesAreSkipped(s: Accessory, settings: Settings, e: Event)
    requires e.MarkMonitoring? && !Refreshes(s, e)
    ensures Step(s, settings, e) == s
  {
  }

  /** The payload of the latest update of a resolved family, which unresolved ones leave in place. */
  function LatestPayload(es: seq<Event>): Option<Snapshot> {
    if es == [] then None
    else if es[|es| - 1].Update? then Some(es[|es| - 1].snapshot)
    else LatestPayload(es[..|es| - 1])
  }

  lemma {:induction false} LatestPayloadIsKept(restored: set<Kind>, settings: Settings, es: seq<Event>)
    ensures var s := Run(Start(restored), settings, es);
            s.decoded == match LatestPayload(es) case None => None case Some(snapshot) => Some(Decoded(snapshot))
    decreases |es|
  {
    if es != [] {
      LatestPayloadIsKept(restored, settings, es[..|es| - 1]);
      StepsKeepThePayload(Run(Start(restored), settings, es[..|es| - 1]), settings, es[|es| - 1]);
    }
  }

  lemma StepsKeepThePayload(s: Accessory, settings: Settings, e: Event)
    ensures Step(s, settings, e).decoded == if e.Update? then Some(Decoded(e.snapshot)) else s.decoded
  {
  }

  /**
   * A trust push that reaches a row shows the latest payload again: every characteristic
   * whose scope and whose row's scope may be published carries what that payload says,
   * unless a request withholds a control.
   */
  lemma TrustPushesShowTheLatestPayload(restored: set<Kind>, settings: Settings, es: seq<Event>, e: Event, kind: Kind, c: Characteristic)
    requires var s := Run(Start(restored), settings, es); e.MarkMonitoring? && Refreshes(s, e) && kind in s.services
    requires kind !in e.failing && kind !in settings.suppressed && !(c.On? && kind in e.pending)
    requires LatestPayload(es).Some? && SourceOf(kind, c).Some? && Legible(LatestPayload(es).value.data, SourceOf(kind, c).value)
    requires var after := Step(Run(Start(restored), settings, es), settings, e);
             IsPublishable(kind, ScopeOf(kind), after.untrusted) && IsPublishable(kind, SourceOf(kind, c).value, after.untrusted)
    ensures var services := Step(Run(Start(restored), settings, es), settings, e).services;
            && kind in services && c in services[kind].pushed
            && services[kind].pushed[c] == Reported(kind, c, LatestPayload(es).value.data)
  {
    var s, snapshot := Run(Start(restored), settings, es), LatestPayload(es).value;
    var input := InputFor(s, settings, e);
    LatestPayloadIsKept(restored, settings, es);
    TrustedExactlyWhenLegible(snapshot.data, SourceOf(kind, c).value);
    FactsAreTheFields(kind, c, snapshot.data, snapshot.metadata);
    assert input.decoded == Some(Decoded(snapshot));
    CandidatesAreFacts(kind, c, input);
    RefreshesReachRows(s, settings, e, kind);
  }

  /** A clearing push of a live binder refreshes every other control's tile too, and no sensor's; refused credentials hold it back. */
  lemma ClearingPushesRefreshTheControls(s: Accessory, settings: Settings, e: Event, other: Kind)
    requires e.RefusalClears? && other != e.kind && other in s.services
    ensures var services := Step(s, settings, e).services;
            && other in services
            && if e.live && AlwaysPublishes(other) && !s.monitoring.credentialsRejected then
                 && services[other].active == Some(IsFullyTrusted(other, s.untrusted))
                 && var projected := Project(other, InputOf(s, settings, s.decoded, e.pending));
                    Landed(s.services[other].pushed, projected, projected.Keys, services[other].pushed)
               else services[other] == s.services[other]
  {
  }

  /** Some refresh is owed: the latest one had a row that HomeKit threw on. */
  ghost predicate OwesARefresh(restored: set<Kind>, settings: Settings, es: seq<Event>) {
    es != [] &&
      var before, e := es[..|es| - 1], es[|es| - 1];
      var s := Run(Start(restored), settings, before);
      if Refreshes(s, e) then exists kind :: kind in FailingOf(e) && kind in s.services else OwesARefresh(restored, settings, before)
  }

  /** Over every run a refresh is owed exactly when the latest refresh left a row it could not reach; an update by itself pays nothing. */
  lemma {:induction false} RefreshesAreOwedExactlyWhen(restored: set<Kind>, settings: Settings, es: seq<Event>)
    ensures Run(Start(restored), settings, es).refreshPending <==> OwesARefresh(restored, settings, es)
    decreases |es|
  {
    if es != [] {
      var before, e := es[..|es| - 1], es[|es| - 1];
      RefreshesAreOwedExactlyWhen(restored, settings, before);
      OthersOweNothing(Run(Start(restored), settings, before), settings, e);
    }
  }

  lemma OthersOweNothing(s: Accessory, settings: Settings, e: Event)
    ensures Step(s, settings, e).refreshPending <==>
              if Refreshes(s, e) then exists kind :: kind in FailingOf(e) && kind in s.services else s.refreshPending
  {
    if Refreshes(s, e) {
      RefreshesAreAPass(s, settings, e);
    }
  }

  // ---- What a switch serves after a press ----

  /** What a press was sent over: the windows open, and what each switch served when its own was opened. */
  lemma PressesRememberWhatWasServed(s: Accessory, settings: Settings, e: Event)
    ensures Step(s, settings, e).before ==
              if e.PressSent? then s.before[e.kind := ServedOn(s.services, settings, e.kind)]
              else if e.WindowCloses? then s.before - {e.kind}
              else s.before
  {
  }

  lemma {:induction false} OpenWindowsRemember(s: Accessory, settings: Settings, es: seq<Event>, kind: Kind)
    requires kind in s.before
    requires forall k :: 0 <= k < |es| ==> es[k] != PressSent(kind) && !(es[k].WindowCloses? && es[k].kind == kind)
    ensures kind in Run(s, settings, es).before && Run(s, settings, es).before[kind] == s.before[kind]
    decreases |es|
  {
    if es != [] {
      OpenWindowsRemember(s, settings, es[..|es| - 1], kind);
      PressesRememberWhatWasServed(Run(s, settings, es[..|es| - 1]), settings, es[|es| - 1]);
      assert es[|es| - 1] != PressSent(kind);
    }
  }

  /** A write HAP stored is what the switch serves. */
  lemma StoredWritesAreServed(s: Accessory, settings: Settings, kind: Kind, asked: bool)
    requires AlwaysPublishes(kind) && kind in s.services
    ensures ServedOn(Step(s, settings, WriteStored(kind, asked)).services, settings, kind) == asked
  {
  }

  lemma ClosingWindowsServe(s: Accessory, settings: Settings, kind: Kind, pending: set<Kind>)
    requires AlwaysPublishes(kind) && kind in s.services
    ensures ServedOn(Step(s, settings, WindowCloses(kind, pending)).services, settings, kind) ==
              if kind !in s.before then ServedOn(s.services, settings, kind)
              else OrElse(ReportedControl(s, settings, kind), s.before[kind])
  {
    assert kind in ControlsRepublished(s, settings, pending);
  }

  /**
   * A request nobody confirmed leaves no trace: whatever came between the press and the
   * close of its window, the switch then serves what the device reports, and without a
   * report exactly what it served before the press.
   */
  lemma UnconfirmedPressesAreTakenBack(s: Accessory, settings: Settings, kind: Kind, es: seq<Event>, pending: set<Kind>)
    requires AlwaysPublishes(kind)
    requires forall k :: 0 <= k < |es| ==> es[k] != PressSent(kind) && !(es[k].WindowCloses? && es[k].kind == kind)
    requires kind in Run(Step(s, settings, PressSent(kind)), settings, es).services
    ensures var t := Run(Step(s, settings, PressSent(kind)), settings, es);
            ServedOn(Step(t, settings, WindowCloses(kind, pending)).services, settings, kind) ==
              OrElse(ReportedControl(t, settings, kind), ServedOn(s.services, settings, kind))
  {
    PressesRememberWhatWasServed(s, settings, PressSent(kind));
    OpenWindowsRemember(Step(s, settings, PressSent(kind)), settings, es, kind);
    ClosingWindowsServe(Run(Step(s, settings, PressSent(kind)), settings, es), settings, kind, pending);
  }
}
