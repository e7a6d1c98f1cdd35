# Verified model of the Basement Guardian plugin

The plugin watches sump-pump controllers through a vendor cloud and publishes what
it knows to HomeKit. It is a set of small state machines whose guarantees hold over
whole runs and across interleavings: a poll, a live shadow connection, a command, a
cancellation or a shutdown can land at any await. This project models those machines
and proves the guarantees.

Each module follows one part of the program. The state is a datatype, one event is a
`Step`, a run is a sequence of events, and the main results are lemmas over every run.
Where the program updates variables in place, a class holds the same variables and its
methods, written as the program writes them, are proved equal to the steps. Code that
awaits is cut at its awaits: a step is one stretch between two of them.

| File | What it models |
|---|---|
| `PumpRecords.dfy` | the activation record: counts, timestamps, self-test label, persistence |
| `PumpSimulation.dfy` | that record against a device that publishes each run's timestamp after the run, and may withhold it |
| `PrimaryPumpSimulation.dfy` | the same record against a primary pump, which publishes no timestamps |
| `DeviceState.dfy`, `StoreOrdering.dfy`, `StoreContents.dfy` | the canonical store, version watermarks, silence fences, delivery order, and where every value comes from |
| `MonitoringHealth.dfy`, `ArrivalAnchors.dfy` | silence on two clocks, and the chain of anchor writes |
| `Reconciliation.dfy`, `AccountMonitoring.dfy` | absence counts, inventories, removals, and how poll and shadow share a device |
| `AuthProtocol.dfy` | one shared, cancellable grant for any number of callers |
| `RetryPolicy.dfy`, `ShadowClient.dfy`, `ShadowReports.dfy` | the connection lifecycle, its guarded retry, and what the consumer is told |
| `Controls.dfy`, `ControlOutcomes.dfy` | presses, commands, windows and clearing pushes against HAP's write semantics, and what a user sees of them |
| `RuntimeLifecycle.dfy`, `RuntimeProgress.dfy` | launch, polling, rotation and retry loops meeting a halt or a stop at any await, and going on until then |
| `Redaction.dfy`, `RedactedOutput.dfy` | the redaction sweep against a per-index specification, and which secrets its output can hold |
| `Gemini.dfy`, `ServiceCatalogue.dfy`, `BasementGuardian.dfy`, `AccessoryTiles.dfy` | validation, decoding, distrust and publication, and what each tile carries |
| `Registration.dfy` | registration, listeners and owed writes when any HomeKit call may throw |

## Where the program promises less than one may read into it

Each of these comes with a concrete witness and, where the promise is conditional,
with the lemma that says exactly when it holds.

- A self-test label stops being the comparison of the two device timestamps exactly when
  a settled pair of times behind the watermark is classified
  (`PumpRecords.LabelBreaksExactlyWhen`, over runs
  `PumpRecords.LabelsAreComparisonsExactlyWhen`); a device clock that steps back gets
  there (`PumpRecords.SteppingBackBreaksTheLabel`), one that does not never does.
- A backup run can be counted twice only where an older timestamp is shown while the run
  last watched has not published its own; each such snapshot takes one timestamp for a
  run it does not belong to, and nothing else does
  (`PumpSimulation.SurplusExactlyWhenHandedOver`, and the surplus term of
  `PumpSimulation.CountConservation`). The code names it as an assumption about the
  device (`PumpSimulation.AnOlderFirstTimestampCountsTwice`).
- A shadow client is left without a connection or a retry exactly by a retry whose opening
  throws with nothing in use, and keeps a connection on the old routing table exactly by
  a start whose opening throws over one (`ShadowClient.StepRecoversExactlyWhen`,
  `ShadowClient.StepRoutesExactlyWhen`, both over runs too; the witnesses are
  `ShadowClient.AThrowingRetryStrands` and `ShadowClient.AThrowingStartMisroutes`).
- Two commands for one capability can be out at once (`Controls.TwoCommandsCanBeOut`),
  exactly after a report or a window freed the capability before its command answered
  (`Controls.OneInFlightBreaksExactlyWhen`, over runs `Controls.OneInFlightExactlyWhen`).
- Two shadow retry chains can be under way at once (`RuntimeProgress.TwoChainsCanRun`),
  exactly after an opening that was out beside a chain throws
  (`RuntimeProgress.OneChainBreaksExactlyWhen`).
- Losing both transports over a lost controller link publishes values the lost link
  alone withholds (`ServiceCatalogue.LosingSightPublishesAgain`); when a value is
  withheld is `ServiceCatalogue.WithheldExactlyWhen`.
- The offline adapter does not move while the payload's own `offline` field fails
  validation, even when the polls have confirmed an outage
  (`BasementGuardian.AnUnreadableFieldHidesAnOutage`): it shows the verdict of the last
  point at which that field validated (`BasementGuardian.OfflineAdapterShowsTheLastReadable`).
  A comment in `src/accessories/basementGuardian.ts:400-404` says the count never reads
  the device's own report, which is true of the count; publication still waits for that
  field.
- What a control switch serves need not be a device value: a clearing push without a
  report pushes what HAP already served (`BasementGuardian.SwitchesServeNothingMadeUp`
  says all it can be).
- A registered secret can appear in the output if and only if it overlaps the redaction
  marker (`RedactedOutput.SecretsLeakExactlyWhenTheyClash`), as `red` does
  (`RedactedOutput.AMarkerCanSpellASecret`).

## Model

| member | source | states |
|---|---|---|
| PumpRecords.Reducer.constructor | src/accessories/pumpRecords.ts:267-281 | A process resumes the stored record whole or not at all, with nothing pending and no running flag remembered. |
| PumpRecords.Reducer.Seed | src/accessories/pumpRecords.ts:289-302 | The first record starts both counts at zero at the receipt time, with no watermark and nothing awaited. |
| PumpRecords.Reducer.ReconcileBackupTimestamp | src/accessories/pumpRecords.ts:313-352 | A newer device timestamp seeds, or answers the awaited run, or counts one run that was missed and drops its label; it answers whether the record moved. |
| PumpRecords.Reducer.ReconcileClassification | src/accessories/pumpRecords.ts:359-375 | The label is set from the reported test timestamp only when no run awaits its timestamp; it answers whether the record moved. |
| PumpRecords.Reducer.Observe | src/accessories/pumpRecords.ts:378-418 | One observation takes the whole reducer state to the specified one; after a return what is persisted equals what is held, after a throw the write stays owed and disk is untouched. |
| PumpRecords.LabelDisciplineKept | src/accessories/pumpRecords.ts:359-375 | An edge awaiting its timestamp never carries a self-test label, after every observation. |
| PumpRecords.LabelBreaksExactlyWhen | src/accessories/pumpRecords.ts:359-375 | A present label stops being the timestamp comparison if and only if a settled pair behind the watermark, its test time the later one, is classified while nothing is awaited and no edge starts. |
| PumpRecords.LabelsAreComparisonsExactlyWhen | src/accessories/pumpRecords.ts:359-375 | Over every run the label is the comparison at every point if and only if no observation does that. |
| PumpRecords.LabelComparisonKept | src/accessories/pumpRecords.ts:208-220 | With device timestamps that do not step back, a present label says exactly that the test timestamp is at or after the backup one. |
| PumpRecords.SteppingBackBreaksTheLabel | src/accessories/pumpRecords.ts:208-220 | A run of five observations from an empty record whose device clock steps back ends with a label that disagrees with the stored timestamps. |
| PumpRecords.CountsAndWatermarkNeverDecrease | src/accessories/pumpRecords.ts:313-352 | No observation lowers a count or the backup watermark, and the backup count grows by at most two. |
| PumpRecords.PrimaryCountIsStartsWatched | src/accessories/pumpRecords.ts:177-186 | Over every run of observations the primary count grows by exactly the number of starts watched: flags that say running behind one that said idle with only undecoded ones between; a restart remembers no flag. |
| PumpRecords.PrimaryActivationIsTheLatestStart | src/accessories/pumpRecords.ts:387-391 | And its last activation is the receipt time of the latest start watched. |
| PumpRecords.RecordsStayHonest | src/accessories/pumpRecords.ts:378-417 | Over every run of observations with failing and landing writes: the label discipline holds, memory and disk differ only while a write is owed, and a landing write leaves them equal. |
| PumpRecords.WritesAreAskedExactlyWhen | src/accessories/pumpRecords.ts:404-417 | A write is asked for exactly when the record moved or an earlier write is owed; it stays owed when it fails and lands the new record otherwise. |
| PumpRecords.LabelsStayComparisons | src/accessories/pumpRecords.ts:359-375 | Over every run of non-decreasing device times the present label stays the timestamp comparison. |
| PumpRecords.RestartRoundTrip | src/accessories/pumpRecords.ts:123-165 | A restart gives the persisted record back whole if every time is a date and every count a safe integer, and otherwise nothing, and remembers nothing else. |
| PumpRecords.HalfARecordIsNone | src/accessories/pumpRecords.ts:270-281 | A stored member that is missing, malformed or out of range costs the whole record. |
| PumpRecords.RecordsStayInRange | src/accessories/pumpRecords.ts:378-404 | From dates the reducer writes only records the next process takes back, while the counts are short of their limit. |
| PumpRecords.ChangedMeansDifferent | src/accessories/pumpRecords.ts:378-404 | The flags the reducer collects say exactly that the record moved: no later step of an observation undoes an earlier one. |
| PumpSimulation.StepKeepsInv | src/accessories/pumpRecords.ts:313-417 | Against a device whose numbered runs publish increasing timestamps between stop and next start, and which may withhold them, every device step, snapshot, failed write and restart keeps the accounting relation between record and device. |
| PumpSimulation.RunKeepsInv | src/accessories/pumpRecords.ts:313-417 | The accounting relation holds after every run of device and plugin steps. |
| PumpSimulation.CountConservation | src/accessories/pumpRecords.ts:313-352 | Counted runs plus runs that went by unseen equal the timestamps seen since the baseline, plus the watched runs still awaiting one, plus the timestamps taken for a run they did not belong to. |
| PumpSimulation.SurplusExactlyWhenHandedOver | src/accessories/pumpRecords.ts:320-345 | A timestamp is taken for the wrong run somewhere in a run if and only if some snapshot shows an older timestamp while the run last watched has not published its own. |
| PumpSimulation.DevicesThatShowNeverHandOver | src/accessories/pumpRecords.ts:320-345 | A device that shows its latest timestamp in every decoded snapshot never does that. |
| PumpSimulation.NeverCountsARunTwice | src/accessories/pumpRecords.ts:313-352 | Under any sampling, undecoded gaps and restarts, as long as no snapshot hands an older timestamp over, the backup count never exceeds the runs begun since the baseline, nor since the first decoded snapshot. |
| PumpSimulation.ExactWhenNothingIsMissed | src/accessories/pumpRecords.ts:313-417 | Under that condition the count equals the runs begun since the baseline if and only if no timestamp went by unseen and no run is outstanding. |
| PumpSimulation.PromptRunsMissNothing | src/accessories/pumpRecords.ts:313-352 | If besides every timestamp is observed before the next is published, no run goes by unseen, across restarts too. |
| PumpSimulation.PromptCountsAreExact | src/accessories/pumpRecords.ts:313-417 | Such a run counts exactly the runs accounted for, the awaited one included. |
| PumpSimulation.AnOlderFirstTimestampCountsTwice | src/accessories/pumpRecords.ts:320-352 | The condition is needed: a device that withholds an older timestamp until a watched run has stopped gets one physical run counted twice. |
| PrimaryPumpSimulation.PrimaryCountConservation | src/accessories/pumpRecords.ts:177-186 | Against a physical primary pump, under any sampling, undecoded gaps, failed writes and restarts: runs counted plus runs not watched to start are the runs begun between the first and the latest decoded snapshot, so no run is counted twice. |
| PrimaryPumpSimulation.WatchedCountsAreExact | src/accessories/pumpRecords.ts:177-186 | When every run is watched to start, the count is exactly the runs begun up to the latest decoded snapshot. |
| DeviceState.DeviceStateStore.ApplyDiscovery | src/device/state.ts:190-216 | A poll observes the device, replaces telemetry the shadow does not own, keeps owned telemetry, metadata and the watermark, and touches no other device. |
| DeviceState.DeviceStateStore.ApplyReportedPatch | src/device/state.ts:379-399 | A patch is accepted exactly when the device is known and neither fence nor watermark refuses it; an accepted one merges, moves the watermark and lifts or raises the fence as specified. |
| DeviceState.DeviceStateStore.ReleaseShadowSource | src/device/state.ts:435-449 | A release clears the watermark; silence raises a fence at it unless one stands, a disconnect lifts the fence. |
| DeviceState.DeviceStateStore.Remove | src/device/state.ts:401-407 | A removed device is unknown and unfenced; no other device changes. |
| StoreOrdering.StepKeepsSound | src/device/state.ts:379-449 | A fence stands only over a known device whose telemetry the shadow does not own, after every operation. |
| StoreOrdering.AcceptedVersionsIncrease | src/device/state.ts:379-399 | Between disconnects and removals the versions of accepted telemetry patches strictly increase, through any polls, silence releases, versionless and metadata-only patches. |
| StoreOrdering.GuardedRunsStayAbove | src/device/state.ts:241-280 | Once a version was accepted, watermark or fence keeps every later accepted telemetry version above it. |
| StoreOrdering.OwnershipReturnsOnlyToNewerTelemetry | src/device/state.ts:241-280 | After a silence the shadow owns telemetry again exactly when a versioned, non-empty telemetry patch newer than the fence arrives; otherwise the fence stays where it was. |
| StoreOrdering.SilenceHoldsUntilNewerTelemetry | src/device/state.ts:435-449 | Over any run without such a patch the device stays with the poll, behind the same fence. |
| StoreOrdering.PollsOwnAFencedDevice | src/device/state.ts:190-192 | A poll of a fenced device writes its own body, and a versionless reading changes nothing. |
| StoreOrdering.LateDocumentsChangeNothing | src/device/state.ts:143-145 | Documents at or below the watermark leave the device exactly as it was. |
| StoreOrdering.DeliveryConverges | src/device/state.ts:287-299 | Any delivery order, with duplicates, of versioned documents over one set of keys ends in the newest one's values if it passes the watermark, and otherwise unchanged. |
| StoreOrdering.OrderDoesNotMatter | src/device/state.ts:137-145 | Two deliveries of the same documents end in the same telemetry, and keys outside the documents keep their values. |
| StoreContents.IdentityIsTheLatestPolls | src/device/state.ts:190-216 | A device is known exactly while it was polled since its last removal, with the identity, connection and timestamp of the latest poll. |
| StoreContents.ReadingsAreTheLatestWritten | src/device/state.ts:190-299 | Over any mix of polls, patches, releases and removals a reading is there with a value if and only if its latest writer, an accepted patch or a poll of telemetry the shadow did not own, brought that value. |
| StoreContents.MetadataIsTheLatestWritten | src/device/state.ts:287-299 | A metadata value is the one the latest accepted patch that named it brought; polls and releases keep it. |
| StoreContents.ReceiptIsTheLatestObservation | src/device/state.ts:287-299 | A known device was last observed when the latest poll or observing patch arrived. |
| ArrivalAnchors.AnchorStore.Restore | src/runtime/arrivalAnchors.ts:188-198 | A restore takes the whole stored map or nothing of it. |
| ArrivalAnchors.AnchorStore.Persist | src/runtime/arrivalAnchors.ts:200-216 | A persist call takes its snapshot at once and queues one write behind every earlier one. |
| ArrivalAnchors.AnchorStore.BeginWrite | src/runtime/arrivalAnchors.ts:204-213 | A queued write starts only when the one before it has settled. |
| ArrivalAnchors.AnchorStore.SettleWrite | src/runtime/arrivalAnchors.ts:151-161 | A write either renames its snapshot into place or fails and leaves the file alone. |
| ArrivalAnchors.StepKeepsInv | src/runtime/arrivalAnchors.ts:200-216 | Every step of the write chain keeps: writes settle in call order and the file is the latest landed snapshot. |
| ArrivalAnchors.WritesLinearize | src/runtime/arrivalAnchors.ts:200-216 | With any overlap and any failing writes, the file always holds the snapshot of the latest call whose write landed, in persist-call order. |
| ArrivalAnchors.FileNeverReverts | src/runtime/arrivalAnchors.ts:151-161 | A rename never replaces the snapshot of a later call by an older one. |
| ArrivalAnchors.EveryCallIsWritten | src/runtime/arrivalAnchors.ts:200-216 | No persist call is lost: the writes are the calls, in call order, each with the snapshot it captured. |
| ArrivalAnchors.TheChainCanMove | src/runtime/arrivalAnchors.ts:200-216 | While any write is unsettled the first of them can begin, or is under way and can land or fail. |
| ArrivalAnchors.Readable | src/runtime/arrivalAnchors.ts:188-198 | A stored file whose every anchor is finite gives exactly its anchors; any other gives none. |
| MonitoringHealth.SilentOnEitherClock | src/runtime/monitoringHealth.ts:200-217 | A device is not silent exactly when less than two heartbeat intervals of 898 seconds passed on the forward-only clock and, where an anchor exists, on the wall clock. |
| MonitoringHealth.RestIsDegradedExactlyWhen | src/runtime/monitoringHealth.ts:261-267 | Polling is degraded if and only if the two latest polls failed. |
| MonitoringHealth.Health.RecordShadowMessage | src/runtime/monitoringHealth.ts:269-274 | A message stamps its own device on both clocks and no other. |
| MonitoringHealth.Health.AdmitDevice | src/runtime/monitoringHealth.ts:276-289 | An admission stamps only what is missing: a device already heard or anchored keeps both. |
| MonitoringHealth.Health.ForgetDevice | src/runtime/monitoringHealth.ts:294-296 | Forgetting drops one device's arrival and nothing else. |
| Reconciliation.AbsenceTracker.Observe | src/accessories/reconciliation.ts:78-101 | Listed devices count zero, omitted ones one more, and exactly the tracked devices omitted at the threshold are reported. |
| Reconciliation.CountsAreHistory | src/accessories/reconciliation.ts:78-101 | Over every history a count is exactly the number of inventories that omitted the device since it was last shown. |
| Reconciliation.ConfirmedMeansTwiceOmitted | src/accessories/reconciliation.ts:78-109 | A confirmed device was shown before, and this inventory and the latest one before it both omit it. |
| Reconciliation.TwiceOmittedIsConfirmed | src/accessories/reconciliation.ts:56-65 | And whenever that is so it is confirmed: no omission is lost. |
| AccountMonitoring.AccountRuntime.OnReportedPatch | src/runtime/accountRuntime.ts:860-904 | A message applies its patch, and renews liveness and anchor only for an accepted non-empty reading of a known device. |
| AccountMonitoring.AccountRuntime.OnDisconnected | src/runtime/accountRuntime.ts:813-832 | The end of the connection hands every known device back to the poll. |
| AccountMonitoring.AccountRuntime.ReleaseSilentDevices | src/runtime/accountRuntime.ts:448-450 | Exactly the devices silent at this poll are released. |
| AccountMonitoring.AccountRuntime.ApplyInventory | src/runtime/accountRuntime.ts:448-463 | One inventory does to every device what the per-device specification says, releases before bodies, and reports the confirmed absences. |
| AccountMonitoring.AccountRuntime.Resolve | src/runtime/accountRuntime.ts:494-563 | One confirmed device: a reappearance resets its count, a refusal leaves everything, a commit leaves no count, stamp, anchor or owned snapshot. |
| AccountMonitoring.AccountRuntime.CommitRemovals | src/runtime/accountRuntime.ts:489-564 | The loop over the confirmed devices gives each its own outcome: a committed removal leaves no absence count, arrival stamp or anchor, a refused one leaves all of them. |
| AccountMonitoring.RemovalCommitsExactlyWhen | src/runtime/accountRuntime.ts:460-565 | A removal commits if and only if the device was seen or known, the two latest trustworthy inventories omit it, the same poll's extra fetch omits it and HomeKit does not refuse. |
| AccountMonitoring.RunKeepsCovered | src/runtime/accountRuntime.ts:448-458 | Over every run shadow-owned telemetry is never vouched for by an anchor alone. |
| AccountMonitoring.EveryPollLeavesCurrentTelemetry | src/runtime/accountRuntime.ts:448-458 | After every successful poll, whatever came before, each listed device's telemetry is that poll's body, or shadow-owned and heard within two heartbeat intervals on both clocks. |
| AccountMonitoring.PollsKeepOwnersExactlyWhen | src/runtime/accountRuntime.ts:448-458 | A poll leaves the shadow a device's owner if and only if it was, and the device was heard within the window on both clocks. |
| AccountMonitoring.StampIsLastHeard | src/runtime/monitoringHealth.ts:269-296 | The forward-only stamp is the monotonic reading of the latest accepted reading, or of the admission, since the last removal. |
| AccountMonitoring.AnchorIsLastHeard | src/runtime/monitoringHealth.ts:269-289 | The wall anchor is the wall reading of that same time, or the anchor the process was restored with where nothing came since. |
| AccountMonitoring.OwnedAnchorsAreFromThisRun | src/runtime/monitoringHealth.ts:276-289 | While the shadow owns a device's telemetry its anchor is the wall reading of the last accepted reading or admission of this run, never a restored one. |
| AuthProtocol.AuthClient.IdToken | src/cloud/auth.ts:599-614 | A caller arrives: cancelled or halted is refused at once, and the first one starts the single cache read. |
| AuthProtocol.AuthClient.CurrentToken | src/cloud/auth.ts:577-596 | With the cache in hand a caller returns a token outside its renewal margin or goes to the shared grant. |
| AuthProtocol.AuthClient.JoinGrant | src/cloud/auth.ts:539-575 | A caller waits out an abandoned attempt, is refused by a halt, joins the attempt in flight or opens one. |
| AuthProtocol.AuthClient.Deliver | src/cloud/auth.ts:456-497 | A settled attempt answers its waiter and gives its place back without aborting anything. |
| AuthProtocol.AuthClient.Reenter | src/cloud/auth.ts:539-575 | A caller that waited out an abandoned attempt asks again from the start. |
| AuthProtocol.AuthClient.Return | src/cloud/auth.ts:577-596 | A grant is cached and returned unless the caller was cancelled meanwhile. |
| AuthProtocol.AuthClient.Cancel | src/cloud/auth.ts:456-497 | A cancellation rejects its own caller only, and aborts the attempt exactly when nobody else waits on it. |
| AuthProtocol.AuthClient.RequestAnswered | src/cloud/auth.ts:422-440 | A refusal records the terminal halt before anything is awaited, a token goes to the cache file, anything else ends the attempt. |
| AuthProtocol.AuthClient.FileWorkFinished | src/cloud/auth.ts:444-451 | After the cache file work the attempt ends as granted, refused or aborted. |
| AuthProtocol.AuthClient.Settle | src/cloud/auth.ts:539-575 | A settled attempt is no longer in flight. |
| AuthProtocol.StepKeepsInv | src/cloud/auth.ts:456-596 | Every step keeps one attempt in flight, the waiter counts, abandonment, and each caller's own cancellation. |
| AuthProtocol.SingleFlight | src/cloud/auth.ts:521-616 | In every interleaving at most one grant is unsettled, `waiters` is the number of callers waiting on it, an attempt with a live waiter is not aborted, and nobody is rejected with another caller's cancellation. |
| AuthProtocol.AbortNeedsTheLastWaiter | src/cloud/auth.ts:456-497 | An attempt becomes aborted exactly by the cancellation of its only remaining waiter. |
| AuthProtocol.NothingStartsAfter | src/cloud/auth.ts:346-368 | An aborted attempt is never joined again, and after a recorded refusal no grant ever starts. |
| AuthProtocol.FreshClientsHaltExactlyWhenRefused | src/cloud/auth.ts:346-368 | Over every run of a new client it is halted if and only if at some point the vendor refused a grant that nobody had abandoned by then. |
| AuthProtocol.NoGrantAfterARefusal | src/cloud/auth.ts:346-368 | From the very step that brings such a refusal the client is halted for the rest of the run and opens no further grant. |
| AuthProtocol.WaitersHearTheVendor | src/cloud/auth.ts:422-451 | Every waiter is answered what the vendor answered to its attempt: a token is handed on, a refusal rejects it as refused, anything else as failed. |
| AuthProtocol.RefusalsReachEveryWaiter | src/cloud/auth.ts:346-368 | Whoever waits on a refused grant is rejected as refused, however long after the refusal it hears of it. |
| AuthProtocol.AbortedWorkGrantsNothing | src/cloud/auth.ts:444-451 | The work of an aborted attempt ends without a token, however far its cache write had come. |
| AuthProtocol.ReachingTheGrant | src/cloud/auth.ts:539-575 | A live caller at the shared grant joins the attempt that is out, waits it out if it was abandoned, opens one if there is none, and is refused by a halt. |
| AuthProtocol.CancelledCallersGetNothing | src/cloud/auth.ts:456-497 | Once its signal has fired a caller is answered with its own cancellation or not at all, and a finished caller stays as it was. |
| AuthProtocol.NobodyIsStuck | src/cloud/auth.ts:456-614 | In every reachable state a caller not answered yet can be cancelled, and can go on itself or waits for something that can. |
| AuthProtocol.AnswersAreProvided | src/cloud/auth.ts:577-614 | Every token a caller is answered with was granted by the vendor in this run or held by the cache file. |
| AuthProtocol.ReturnedTokensAreReused | src/cloud/auth.ts:577-614 | A returned token serves every later caller without a request up to one hour before it expires, and from then on they go to the shared grant. |
| AuthProtocol.StoredTokensAreUsed | src/cloud/auth.ts:586-595 | The first live caller past the cache read takes what the file held on the same terms. |
| AuthProtocol.ArrivalsReadTheCacheOnce | src/cloud/auth.ts:577-586 | A caller arrives at the cache read unless it is cancelled or the client is halted; the first to arrive starts the read and no other restarts it. |
| AuthProtocol.NewGrantsNeedASettledPredecessor | src/cloud/auth.ts:539-575 | A new grant starts only when every earlier attempt has settled, nothing is halted and its caller is not cancelled. |
| RetryPolicy.RetrySchedule.NextDelayMs | src/runtime/retryPolicy.ts:53-57 | Each call hands out the next doubled delay under the ceiling. |
| RetryPolicy.RetrySchedule.Schedule | src/runtime/retryPolicy.ts:92-99 | A schedule while a chain is pending is dropped; otherwise one wait of the next delay begins, and ends at once when the signal is aborted. |
| RetryPolicy.DelaysAreCappedAndNeverShorten | src/runtime/retryPolicy.ts:53-57 | Delays never shorten and never pass the ceiling, and sit on the bundled one from the seventh attempt. |
| RetryPolicy.DelaysDouble | src/runtime/retryPolicy.ts:19-57 | The first wait is half a second and each next one twice as long, up to the ceiling. |
| RetryPolicy.BundledDelays | src/runtime/retryPolicy.ts:19-57 | Under the bundled ceiling the waits are 0.5, 1, 2, 4, 8, 16 and then always 30 seconds. |
| ShadowClient.Shadow.Open | src/cloud/shadow.ts:418-446 | Opening supersedes and ends the connection before it; nothing opens once closing, and a throw leaves everything. |
| ShadowClient.Shadow.Start | src/cloud/shadow.ts:460-466 | A start replaces the routing table by the usable devices and opens. |
| ShadowClient.Shadow.Close | src/cloud/shadow.ts:471-476 | Closing ends the transport once and sets the flag that silences its notifications. |
| ShadowClient.Shadow.Give | src/cloud/shadow.ts:238-242 | A released connection reports its one reason and schedules a retry. |
| ShadowClient.Shadow.HandleConnect | src/cloud/shadow.ts:383-386 | The socket opening marks the connection established and asks for every routed shadow. |
| ShadowClient.Shadow.HandleMessage | src/cloud/shadow.ts:262-284 | A message is delivered exactly for a routed, readable, non-rejected topic of the current connection. |
| ShadowClient.Shadow.HandleError | src/cloud/shadow.ts:313-317 | A failing transport gives the connection up. |
| ShadowClient.Shadow.HandleClose | src/cloud/shadow.ts:329-339 | A close gives it up, told apart by whether it was ever established. |
| ShadowClient.Shadow.SubscriptionSettled | src/cloud/shadow.ts:352-375 | A settled subscription makes the current connection live, or gives it up; a superseded one changes nothing. |
| ShadowClient.Shadow.RetryFired | src/runtime/retryPolicy.ts:61-79 | A retry that fires reopens through the same opener. |
| ShadowClient.Shadow.RetrySettled | src/runtime/retryPolicy.ts:69-79 | The guard opens after the retry's work. |
| ShadowClient.Shadow.RootAborted | src/runtime/retryPolicy.ts:69-79 | An aborted root signal ends a retry still waiting and keeps later ones from waiting. |
| ShadowClient.StepKeepsInv | src/cloud/shadow.ts:228-446 | Every event keeps: one report per connection, every superseded connection ended, and the guard over a reopening. |
| ShadowClient.OneReportPerConnection | src/cloud/shadow.ts:238-242 | Every connection reports at most one disconnection and nothing after it. |
| ShadowClient.StepRecoversExactlyWhen | src/runtime/retryPolicy.ts:61-79 | A client that has a connection it still uses or a retry on its way loses both in a step if and only if the step is a retry whose opening throws while it is not closing and has no unreleased connection. |
| ShadowClient.StepRoutesExactlyWhen | src/cloud/shadow.ts:460-466 | A client whose connection asked for the table in force stops matching it in a step if and only if the step is a start for other devices whose opening throws over a connection that already asked. |
| ShadowClient.RunRecoversExactlyWhen | src/cloud/shadow.ts:298-446 | Over every run the client recovers at every point if and only if no step strands it. |
| ShadowClient.RunRoutesExactlyWhen | src/cloud/shadow.ts:352-466 | Over every run the subscriptions match the table at every point if and only if no step misroutes it. |
| ShadowClient.StuckOrMisroutedOnlyByThrows | src/cloud/shadow.ts:298-375 | From a new client: without a stranding step, started and neither closed nor aborted means an unreleased current connection or a pending retry; without a misrouting one, connected means the live connection subscribed to exactly the current routing table. |
| ShadowClient.NeverStuck | src/cloud/shadow.ts:298-375 | So both hold throughout while opening never throws. |
| ShadowClient.StartingOpens | src/cloud/shadow.ts:460-466 | Every start leaves a current connection over the usable devices. |
| ShadowClient.LateCallbacksChangeNothing | src/cloud/shadow.ts:391-412 | A notification of a superseded, released or closed connection changes no client state and reports nothing. |
| ShadowClient.AThrowingRetryStrands | src/runtime/retryPolicy.ts:61-79 | A run from a new client that strands: released connection, no retry, neither closing nor aborted. |
| ShadowClient.AThrowingStartMisroutes | src/cloud/shadow.ts:460-466 | A run from a new client that misroutes: a live connection subscribed to the table it replaced. |
| ShadowReports.StepsTellExactly | src/cloud/shadow.ts:228-375 | Every event tells the consumer exactly its own consequence: a routed, readable message, a subscription that took hold, or the one reason the connection in use ended. |
| ShadowReports.RetriesMoveExactly | src/cloud/shadow.ts:238-242 | The retry guard is raised by the first connection given up while none is scheduled and the signal is not aborted, lowered by the retry's settling or an abort that finds it waiting, and the delays start over when a subscription takes hold. |
| ShadowReports.TheFirstFailureSchedules | src/cloud/shadow.ts:238-242 | After any run of a new client in which nothing was given up, the first connection given up schedules the first retry. |
| ShadowReports.OpeningsReplace | src/cloud/shadow.ts:418-446 | An opening adds a connection that has asked for nothing and ends the one before it; nothing opens once closing. |
| ShadowReports.NotificationsMoveTheirConnection | src/cloud/shadow.ts:262-412 | A notification moves its own connection alone, and one not in use only notes that a subscription settled. |
| ShadowReports.ClosingEndsTheConnection | src/cloud/shadow.ts:471-476 | Closing ends the connection in use once and raises nothing. |
| Controls.ControlBinder.SetTimeout | src/accessories/controls.ts:545-549 | Every armed timer gets a handle of its own and a deadline. |
| Controls.ControlBinder.PublishControlRows | src/accessories/basementGuardian.ts:642-654 | A pass publishes the reported value of every control without a pending request and withholds the others. |
| Controls.ControlBinder.Republish | src/accessories/basementGuardian.ts:686-692 | A clearing push republishes unless the credentials were refused. |
| Controls.ControlBinder.ResolvePending | src/accessories/controls.ts:509-518 | Resolving drops the request together with its window timer. |
| Controls.ControlBinder.Refuse | src/accessories/controls.ts:545-588 | A refusal arms a clearing push and throws its status. |
| Controls.ControlBinder.AnswerWrite | src/accessories/controls.ts:590-619 | The first rule that applies refuses the write with its status; otherwise its request is recorded with the window's deadline and the command leaves. |
| Controls.ControlBinder.HandleSetRequest | features/lib/hap.ts:336-358 | A write clears the stored status first, then runs the handler: no handler stores the value, a restored one refuses, a live one answers by the refusal table or sends. |
| Controls.ControlBinder.HandlerSettled | features/lib/hap.ts:336-358 | A thrown status is stored and leaves the value; a return stores the value. |
| Controls.ControlBinder.CommandAnswered | src/accessories/controls.ts:579-628 | A vendor error ends the request and refuses, a timeout refuses and keeps it, an acceptance stores the value. |
| Controls.ControlBinder.Reconcile | src/accessories/controls.ts:646-650 | A report of the requested value ends the request, any other leaves it. |
| Controls.ControlBinder.Update | src/accessories/basementGuardian.ts:938-942 | An update reconciles both controls before it publishes. |
| Controls.ControlBinder.MarkMonitoring | src/accessories/basementGuardian.ts:955-995 | A trust push binds and republishes the controls under the new facts. |
| Controls.ControlBinder.RunTimer | src/accessories/controls.ts:535-549 | A window expiry ends its request and pushes the reported or previous value; a clearing push makes the switch readable again. |
| Controls.PressesSendExactlyWhen | src/accessories/controls.ts:362-378 | A press of a bound switch sends its command if and only if it asks for the one value there is, a transport is ready, a confirmation could be seen, the capability is reported as off, the device is not confirmed offline and nothing is pending; otherwise it is busy exactly when only the last two fail it, and refused in the current state in every other case. |
| Controls.StepKeepsInv | src/accessories/controls.ts:464-650 | Every press, outcome, report, trust push, timer and passing of time keeps the window bijection and an armed clearing push behind every refusal. |
| Controls.RefusalsAlwaysClear | src/accessories/controls.ts:416-477 | In every interleaving a switch with a non-success status has a clearing push due now, all switches are readable once the due timers ran, and no request outlives its 30 s window. |
| Controls.RequestsEndOnlyByThree | src/accessories/controls.ts:509-628 | A request ends exactly by a matching report, a vendor error for its capability, or its window. |
| Controls.PendingBlocksSends | src/accessories/controls.ts:374-376 | While none of the three happens nothing is sent for that capability. |
| Controls.SendsAreSeparated | src/accessories/controls.ts:590-628 | Two sends for one capability always have one of the three between them. |
| Controls.ExpiriesEndTheirOwnRequest | src/accessories/controls.ts:535-543 | An expiry ends the very request that armed it, exactly a window after it was made. |
| Controls.RefusalsMoveNothing | src/accessories/controls.ts:564-569 | A press refused locally, or by the refusal bound to a restored switch, never moves a stored value, neither when it is answered nor when its status lands. |
| Controls.RefusedOutcomesMoveNothing | src/accessories/controls.ts:579-588 | Nor does a press the vendor refused or never answered: no stored value moves, its status is not a success, and only a timeout leaves its request pending. |
| Controls.ClearingInventsNothing | src/accessories/controls.ts:416-420 | A clearing push publishes the device's reported value or what was already served. |
| Controls.OneInFlightBreaksExactlyWhen | src/accessories/controls.ts:509-543 | One command in flight per capability, each with its request pending, survives a step if and only if the step is not a matching report or a window expiry for a capability whose command is still out. |
| Controls.OneInFlightExactlyWhen | src/accessories/controls.ts:509-628 | Over every run it holds at every point if and only if no step does that. |
| Controls.TwoCommandsCanBeOut | src/accessories/controls.ts:509-588 | A run from fresh switches that does: two commands are out, and the first one's late vendor error ends the second's request. |
| ControlOutcomes.SwitchesShowExactly | src/accessories/controls.ts:416-650 | What each switch shows after every event: the reported value where it is due, the previous one where a window closes unreported, and otherwise what was there. |
| ControlOutcomes.SentPressesOpenAWindow | src/accessories/controls.ts:606-619 | A sent press opens a window of thirty seconds that remembers what the switch served before it. |
| ControlOutcomes.UnboundPressesAreAnswered | src/accessories/controls.ts:464-477 | A press of a restored switch is refused and clears without a republish, and one nobody handles is stored as it is. |
| ControlOutcomes.OutcomesAreAnswered | src/accessories/controls.ts:579-628 | An acceptance is stored as the value asked for, a vendor error is a failed communication that ends the request, and silence a timeout that keeps it; both refusals clear by a push that republishes. |
| ControlOutcomes.PassesBind | src/accessories/basementGuardian.ts:938-995 | An update or a trust push binds every switch under its own facts, and nothing ever unbinds one. |
| RuntimeLifecycle.AccountLoops.PushMonitoringTrust | src/runtime/accountRuntime.ts:612-661 | A pushed trust says the transport is ready exactly when nothing ended and the last poll succeeded. |
| RuntimeLifecycle.AccountLoops.HaltOnTerminalAuthFailure | src/runtime/accountRuntime.ts:748-773 | The first refusal halts, records the stop, pushes trust and closes the shadow; a second one performs nothing; both answer true. |
| RuntimeLifecycle.AccountLoops.RecordPoll | src/runtime/accountRuntime.ts:783-795 | The polling fact and its report move together. |
| RuntimeLifecycle.AccountLoops.LaunchFailure | src/runtime/accountRuntime.ts:1074-1098 | A failed launch ends, halts, waits out a throttle, or records the failure and starts the loops. |
| RuntimeLifecycle.AccountLoops.PollFailure | src/runtime/accountRuntime.ts:1016-1052 | A failed poll records nothing under a stop, halts on a refusal, and records a failure otherwise. |
| RuntimeLifecycle.AccountLoops.RunLaunch | src/runtime/accountRuntime.ts:1100-1137 | Each stretch of the launch between awaits, with both end checks where the code has them. |
| RuntimeLifecycle.AccountLoops.RunPoll | src/runtime/accountRuntime.ts:1016-1058 | Each stretch of the poll loop between awaits. |
| RuntimeLifecycle.AccountLoops.TryShadow | src/runtime/accountRuntime.ts:837-937 | The shadow is opened only while running, with credentials and devices, for a membership it does not serve yet. |
| RuntimeLifecycle.AccountLoops.OpenOnce | src/runtime/accountRuntime.ts:956-964 | A retry chain in progress keeps every other opener out. |
| RuntimeLifecycle.AccountLoops.StartRetryChain | src/runtime/accountRuntime.ts:944-952 | A retry chain begins, and ends at once when a shadow is held or the runtime has ended. |
| RuntimeLifecycle.AccountLoops.ShadowStarted | src/runtime/accountRuntime.ts:837-937 | A started client is installed only while the runtime runs, and closed otherwise; a throw starts the retry chain. |
| RuntimeLifecycle.AccountLoops.RefreshCredentials | src/runtime/accountRuntime.ts:966-1001 | A rotation fills or refreshes the cache; a refusal halts unless a stop came first. |
| RuntimeLifecycle.AccountLoops.RetryShadow | src/runtime/accountRuntime.ts:944-952 | An elapsed retry wait tries again unless halted; otherwise the chain is over. |
| RuntimeLifecycle.AccountLoops.Stop | src/runtime/accountRuntime.ts:1214-1240 | The first stop records itself, pushes trust and closes the shadow; a second does nothing. |
| RuntimeLifecycle.StepKeepsInv | src/runtime/accountRuntime.ts:837-1137 | Every resumption of any task at any await, recovery report and stop keeps the effects quiet after an end. |
| RuntimeLifecycle.EndsAreFinal | src/runtime/accountRuntime.ts:416-418 | Effects are only added and neither end is taken back. |
| RuntimeLifecycle.NothingHappensAfterTheEnd | src/runtime/accountRuntime.ts:748-773 | Once halted or stopped, wherever the loops are parked: no poll outcome, no removal, no installed shadow client, every later trust push without a ready transport, and the authentication stop at most once. |
| RuntimeLifecycle.EndedTasksWindDown | src/runtime/accountRuntime.ts:377-405 | After a halt, or after a stop once its cut-short waits no longer elapse, every resumption brings its task strictly closer to its end and starts nothing that waits. |
| RuntimeProgress.HaltedTasksDoNotWait | src/runtime/accountRuntime.ts:377-405 | A halted runtime starts no wait: what a task leaves its await for is its end or a request. |
| RuntimeProgress.FreshRuntimesEndExactlyWhen | src/runtime/accountRuntime.ts:748-773 | Over every run the runtime is halted if and only if a request was refused before a stop, and stopped if and only if it was asked to. |
| RuntimeProgress.StepSaysExactly | src/runtime/accountRuntime.ts:748-1098 | Every step says exactly its own effects in order: poll outcomes, removals, shadow clients, trust pushes and the two ends. |
| RuntimeProgress.PushedTrustIsTrue | src/runtime/accountRuntime.ts:612-661 | Over every run from the start, whoever pushed it and whenever, a pushed trust says the command transport is ready if and only if the latest recorded poll succeeded and neither end had come. |
| RuntimeProgress.TasksGoOn | src/runtime/accountRuntime.ts:837-1137 | While the runtime has not ended every stretch takes its task onward to its next await, starts exactly the loops or the retry chain the code starts, and leaves every other task parked. |
| RuntimeProgress.FreshLoopsStayAlive | src/runtime/accountRuntime.ts:1016-1137 | As long as the runtime has neither halted nor been stopped exactly one task goes on fetching inventories, and from the end of the launch on exactly one goes on rotating credentials, through every failure. |
| RuntimeProgress.OneChainBreaksExactlyWhen | src/runtime/accountRuntime.ts:944-964 | At most one retry chain, under way exactly while its flag is up, survives a step if and only if the step is not an opening beside a chain that throws. |
| RuntimeProgress.TwoChainsCanRun | src/runtime/accountRuntime.ts:944-964 | A run from the start in which two retry chains are under way: the first credentials and a poll try to open the shadow at once, and both fail. |
| Redaction.Sweep | src/logging.ts:94-111 | The sort-and-merge sweep equals the per-index specification for every span list. |
| Redaction.SweepSpan | src/logging.ts:99-109 | The loop body takes the specification over the spans swept so far to the specification over one span more. |
| Redaction.SweepTurn | src/logging.ts:99-109 | One turn of the loop appends exactly what its span adds to the specification. |
| Redaction.UncoveredTextIsKept | src/logging.ts:99-111 | Every uncovered character is kept, in order. |
| Redaction.BlockBecomesOneMarker | src/logging.ts:104-108 | Each overlap-connected block of covered indices becomes exactly one marker. |
| Redaction.IndexOf | src/logging.ts:85-89 | The first occurrence at or after a position, or none. |
| Redaction.OccurrencesOf | src/logging.ts:85-90 | The search loop finds every occurrence, overlapping ones included, and nothing else. |
| Redaction.AddSecret | src/logging.ts:83-92 | A secret contributes the occurrences of both of its forms. |
| Redaction.RedactText | src/logging.ts:72-112 | The redacted text is the specification over exactly the pattern spans and all secret occurrences. |
| Redaction.KeptTextHoldsNoSecret | src/logging.ts:83-111 | No stretch of kept text contains a registered secret or its escaped form. |
| Redaction.SecretRegistry.RegisterSecret | src/logging.ts:184-205 | A blank value is ignored, a value without a role stays for good, a value with one replaces its predecessor in place and no other entry moves. |
| Redaction.BlanksAreWhatTrimmingRemoves | src/logging.ts:184-205 | A value counts as blank exactly when trimming leaves nothing of it, white space told by code point. |
| RedactedOutput.OutputHoldsNoSecret | src/logging.ts:72-112 | The whole output of a redaction holds no registered secret, in its plain or its escaped form, unless the form lies within the marker, holds it, ends as it begins or begins as it ends. |
| RedactedOutput.SecretsLeakExactlyWhenTheyClash | src/logging.ts:72-112 | A registered secret can appear in the output, for some text and some secrets beside it, if and only if it overlaps the marker in one of these ways. |
| RedactedOutput.ClashingSecretsLeak | src/logging.ts:83-111 | The text and the second secret that bring an overlapping secret into the output. |
| RedactedOutput.SecretsWithinTheMarkerLeakAlone | src/logging.ts:104-111 | A secret within the marker is in what is written when it is the only one registered and the only text logged. |
| RedactedOutput.AMarkerCanSpellASecret | src/logging.ts:104-111 | The secret `red`, registered alone, is one. |
| Gemini.ViolationsOf | src/device/gemini.ts:208-220 | The loop names one violation per failing check, in table order. |
| Gemini.ViolationsAreFaults | src/device/gemini.ts:124-168 | A violation is named if and only if some check of the table fails with that field, scope and reason. |
| Gemini.TrustedExactlyWhenLegible | src/device/gemini.ts:78-226 | A scope is trusted if and only if its own fields are legible: flags there and boolean, the level a thermometer code, the battery codes single bits, timestamps numbers where there are any. |
| Gemini.MetadataIsTakenExactlyWhen | src/device/gemini.ts:124-168 | The metadata is taken whole if and only if each field is absent or of its type. |
| Gemini.DecodeNeverThrows | src/device/gemini.ts:231-344 | No decoder's guard fires, whatever the payload. |
| Gemini.ValidationAndDecodingAgree | src/device/gemini.ts:349-378 | For every payload decoding answers, and a scope's group is absent exactly when validation names a violation in that scope; likewise the metadata. |
| Gemini.OneBadFieldCostsOneScope | src/device/gemini.ts:172-226 | A group depends on the fields filed under its scope alone: changing any other field, or an unread key, leaves it the same. |
| Trust.DistrustReasonsOf | src/accessories/basementGuardian.ts:358-380 | The three fill-the-gaps layers equal the per-scope precedence: invalid, then unreachable, then controller link lost, which spares connectivity. |
| Trust.DegradedExactlyWhenUnobservable | src/accessories/basementGuardian.ts:327-350 | A scope is degraded if and only if the credentials were refused, or it is connectivity and polling is degraded, or it is another scope and the shadow is silent. |
| Trust.OfflineCountIsTheTrailingRun | src/accessories/basementGuardian.ts:405-407 | The clamped count reaches n, up to the threshold, exactly when the last n polls were disconnected. |
| ServiceCatalogue.WithheldExactlyWhen | src/accessories/serviceCatalogue.ts:262-266 | A value is withheld if and only if its scope is violated, or the controller link is lost with no transport lost over that scope and the row does not report the link. |
| ServiceCatalogue.DistrustedExactlyWhen | src/accessories/serviceCatalogue.ts:244-246 | Trust is withdrawn if and only if a reason applies that the row does not tolerate. |
| ServiceCatalogue.FullyTrustedExactlyWhen | src/accessories/serviceCatalogue.ts:244-282 | A row is fully trusted if and only if every scope its characteristics read was valid, can be observed, and is not behind a lost link the row does not tolerate. |
| ServiceCatalogue.LosingSightPublishesAgain | src/accessories/basementGuardian.ts:358-380 | More distrust does not always withhold more: losing both transports over a lost controller link publishes again. |
| Gemini.LevelsAreThermometers | src/device/waterLevel.ts:32-64 | A level code has a percentage exactly when its lowest n bits are set for some n up to five, and the percentage is n fifths. |
| Gemini.HoursAreSingleBits | src/device/gemini.ts:300-313 | An hours code has a percentage exactly when it is one of the four lowest bits, worth a quarter for each place. |
| Gemini.WaterSays | src/device/gemini.ts:282-286 | The decoded water group is the level field, its ladder percentage, and flooded exactly at the full level. |
| Gemini.PumpSays | src/device/gemini.ts:288-294 | The decoded pump group is its three vendor fields. |
| Gemini.BatterySays | src/device/gemini.ts:300-313 | The decoded battery group is its vendor fields, the band percentage, and low exactly for a low voltage or the health codes Replace, Poor and NotDetected. |
| Gemini.FaultSays | src/device/gemini.ts:315-323 | The decoded fault group is its five vendor fields. |
| Gemini.FlagsSay | src/device/gemini.ts:296-335 | Mains, mute and self-test groups are their vendor fields. |
| Gemini.MetadataSays | src/device/gemini.ts:337-344 | Metadata that is taken is its four vendor fields, each where it is there. |
| ServiceCatalogue.FactsAreTheFields | src/accessories/serviceCatalogue.ts:433-632 | For a payload whose owning scope validates, what a row reads for each characteristic is what the vendor's own fields say, stated field by field without the decoder. |
| ServiceCatalogue.ProjectionsAreComplete | src/accessories/serviceCatalogue.ts:634-651 | A row other than a control that projects anything from a decoded payload projects every characteristic its class requires. |
| BasementGuardian.BasementGuardianAccessory.constructor | src/accessories/basementGuardian.ts:500-535 | A new instance has pushed nothing, distrusts nothing and has no ready command transport. |
| BasementGuardian.BasementGuardianAccessory.PublishRow | src/accessories/serviceCatalogue.ts:926-934 | A service is added only for a row that projects something or always publishes; a suppressed one is removed. |
| BasementGuardian.BasementGuardianAccessory.PublishRows | src/accessories/basementGuardian.ts:722-751 | The loop over the catalogue does to every row what the row rule says, and each row once. |
| BasementGuardian.BasementGuardianAccessory.RefreshRow | src/accessories/basementGuardian.ts:777-808 | A refresh adds nothing; a row that throws keeps what landed and does not report trust. |
| BasementGuardian.BasementGuardianAccessory.RepublishPublishedRows | src/accessories/basementGuardian.ts:777-808 | Every published row is tried, and the obligation stays exactly when one of them threw. |
| BasementGuardian.BasementGuardianAccessory.RepublishControlRows | src/accessories/basementGuardian.ts:642-654 | A refused write's clearing push refreshes the control rows alone, and none after refused credentials. |
| BasementGuardian.BasementGuardianAccessory.ClearRefusal | src/accessories/controls.ts:416-431 | A clearing push republishes the control rows unless the refusal is a restored switch's or the credentials were refused, and then pushes the reported or the served value. |
| BasementGuardian.BasementGuardianAccessory.Expire | src/accessories/controls.ts:535-543 | A closing window ends its request, republishes the control rows and pushes the reported value or the one served before the press; without a request it does nothing. |
| BasementGuardian.BasementGuardianAccessory.RecordTrustedScopes | src/accessories/basementGuardian.ts:915-923 | Exactly the scopes a snapshot vouches for get its receipt time; connectivity asks the poll, its own field and the credentials. |
| BasementGuardian.BasementGuardianAccessory.UpdateFrom | src/accessories/basementGuardian.ts:997-1075 | An update of a resolved family validates, decodes, recomputes trust and the offline run, and publishes every row. |
| BasementGuardian.BasementGuardianAccessory.UpdateUnresolvedFrom | src/accessories/basementGuardian.ts:1000-1027 | An unresolved family decodes nothing, withdraws all but connectivity, still counts the poll, and only refreshes. |
| BasementGuardian.BasementGuardianAccessory.MarkMonitoringTrust | src/accessories/basementGuardian.ts:955-995 | A trust push recomputes the reasons and refreshes, unless it repeats the stored trust with nothing owed. |
| BasementGuardian.RunKeepsReport | src/accessories/basementGuardian.ts:582-584 | Over every run the stored reasons are current, and from the first pass that reached every row on, every service reports the trust in force or a refresh is owed. |
| BasementGuardian.TrustReportsAreExact | src/accessories/serviceCatalogue.ts:280-282 | In every run with no refresh owed, family resolved or not, a service's `StatusActive` is true if and only if every scope its characteristics read is legible in the latest update, observable by the latest trust push, and not behind a lost controller link the row does not report; restored services join at the first pass that reaches every row. |
| BasementGuardian.RefusedCredentialsWithdrawEveryReport | src/accessories/basementGuardian.ts:327-350 | After a push with refused credentials that reached every row, every trust report is false. |
| BasementGuardian.SkippedPushesLoseNothing | src/accessories/basementGuardian.ts:955-995 | After any trust push whose rows all land, skipped or not, every service reports that trust. |
| BasementGuardian.NoValueFromAnInvalidScope | src/accessories/basementGuardian.ts:722-808 | In every run, partial pushes included, a device value on a service, other than what a control switch serves as `On`, is a fact some snapshot reported whose owning scope validated. |
| BasementGuardian.PublishedValuesAreReported | src/accessories/basementGuardian.ts:722-808 | In every run each such value is what the vendor's fields said in some snapshot whose owning scope validated. |
| BasementGuardian.SwitchesServeNothingMadeUp | src/accessories/controls.ts:416-543 | Over every run, through presses, refusals, clearing pushes and closing windows, a switch serves the value it came up with, one HAP stored for an answered write, or what the vendor's field said in some snapshot whose scope validated. |
| BasementGuardian.ClearingPushesReportedOrServed | src/accessories/controls.ts:416-431 | A clearing push puts on the switch the value the device reports, and without one the value already served. |
| BasementGuardian.UpdatesShowThePayload | src/accessories/basementGuardian.ts:722-751 | After an update every characteristic whose scopes are not in doubt carries what this very payload says, unless an unresolved request withholds a control. |
| BasementGuardian.RowsAreThereExactlyWhen | src/accessories/basementGuardian.ts:722-751 | After an update a row's service is there if and only if it is not turned off and was there before, is a control, or has legible fields to publish. |
| BasementGuardian.DoubtfulRowsStandStill | src/accessories/serviceCatalogue.ts:262-266 | A row whose own scope an update puts in doubt keeps every value it carried and gets no new one. |
| BasementGuardian.DoubtfulValuesStandStill | src/accessories/serviceCatalogue.ts:262-266 | So does one characteristic whose own scope is in doubt, on a row that goes on publishing the others. |
| BasementGuardian.FullPitsRaiseTheLeak | src/accessories/basementGuardian.ts:722-751 | An update with the full level code whose controller link is not down leaves the leak raised, and one with any lower code leaves it cleared, whatever else the payload carries. |
| BasementGuardian.UpdatesShowTheRecords | src/accessories/serviceCatalogue.ts:433-632 | An update with a legible pump group leaves each pump's own record on its own tile, and the self-test label on the backup pump's alone. |
| BasementGuardian.LastTrustedIsTheLatestVouch | src/accessories/basementGuardian.ts:915-923 | The time a scope was last trusted is the receipt time of the latest snapshot that vouched for it, connectivity by a poll alone. |
| BasementGuardian.LinkTilesShowTheLastTrust | src/accessories/serviceCatalogue.ts:433-632 | The controller-link tile shows that time for the fault group whenever the group is legible. |
| BasementGuardian.AddedServicesAreComplete | src/accessories/basementGuardian.ts:722-751 | Whenever a pass adds a service other than the two control switches, that pass pushes every required characteristic; only a resolved update adds any. |
| BasementGuardian.ConfirmedOfflineExactlyWhen | src/accessories/basementGuardian.ts:589-591 | The outage is confirmed if and only if the last `threshold` poll snapshots were all disconnected, live updates and trust pushes notwithstanding. |
| BasementGuardian.OfflineAdapterIsExact | src/accessories/basementGuardian.ts:405-407 | In every run with no refresh owed, as long as the latest payload's own `offline` field validates, a shown offline adapter is active if and only if the last `threshold` poll snapshots were all disconnected. |
| BasementGuardian.OfflineAdapterShowsTheLastReadable | src/accessories/basementGuardian.ts:589-591 | Over every run in which HomeKit does not throw on its row, the offline adapter shows the verdict of the last point at which the `offline` field in force validated. |
| BasementGuardian.OfflineAdapterShowsTheCount | src/accessories/serviceCatalogue.ts:630-632 | After an update whose own `offline` field validates, the offline adapter shows exactly that confirmation. |
| BasementGuardian.OfflineAdapterFreezes | src/accessories/serviceCatalogue.ts:262-266 | While that field does not validate no event moves what the adapter shows. |
| BasementGuardian.AnUnreadableFieldHidesAnOutage | src/accessories/basementGuardian.ts:273-287 | So the adapter can stay quiet through a confirmed outage: a concrete run of two polls. |
| AccessoryTiles.SourcesAreTheTiles | src/accessories/serviceCatalogue.ts:433-632 | Each value of a tile comes from the decoded group the tile files it under: its own scope, or the fault group beside it. |
| AccessoryTiles.LegibleUpdatesShowWholeTiles | src/accessories/serviceCatalogue.ts:433-632 | An update whose every field is legible, with the link up, gives each tile it adds exactly its own values, those of its fault group and those of its pump's record. |
| AccessoryTiles.AddedServicesCarryTheirOwn | src/accessories/serviceCatalogue.ts:634-651 | A service an update adds, other than the two controls, carries every value of its own scope from the start, and so all HomeKit would show at a default. |
| AccessoryTiles.PendingSwitchesStandStill | src/accessories/serviceCatalogue.ts:541-545 | While a request is unresolved no update, refresh or trust push moves what its switch serves. |
| AccessoryTiles.RefreshesReachRows | src/accessories/basementGuardian.ts:777-808 | A refresh adds no service, removes a row turned off, gives a row HomeKit throws on only what landed and no new trust report, and every other row all its values and its trust. |
| AccessoryTiles.RefreshesAreOwedExactlyWhen | src/accessories/basementGuardian.ts:777-808 | Over every run a refresh is owed if and only if the latest refresh left a row it could not reach. |
| AccessoryTiles.RepeatedPushesAreSkipped | src/accessories/basementGuardian.ts:955-995 | A trust push that repeats the stored trust with nothing owed changes nothing. |
| AccessoryTiles.TrustPushesShowTheLatestPayload | src/accessories/basementGuardian.ts:955-995 | A trust push that reaches a row shows the latest resolved payload again, wherever its scopes may be published and no request withholds the control. |
| AccessoryTiles.ClearingPushesRefreshTheControls | src/accessories/basementGuardian.ts:642-692 | A clearing push of a live binder refreshes every other control's tile and no sensor's; refused credentials hold it back. |
| AccessoryTiles.UnconfirmedPressesAreTakenBack | src/accessories/controls.ts:535-619 | Whatever comes between a sent press and the close of its window, the switch then serves what the device reports, and without a report exactly what it served before the press. |
| Registration.DiscoveryPlatform.AccessoryFor | src/platform.ts:211-229 | An accessory gets one instance, which subscribes once, and keeps it. |
| Registration.DiscoveryPlatform.UpdateDiscoveredDevice | src/platform.ts:240-302 | An update leaves a changed accessory owed a write until one lands, whether the update throws or not. |
| Registration.DiscoveryPlatform.RegisterFirstSeen | src/platform.ts:307-381 | A new device is prepared, registered and only then adopted; a throwing registration suspends the UUID for the run. |
| Registration.DiscoveryPlatform.DispatchDiscoveredDevice | src/platform.ts:307-381 | A held UUID is updated and never registered again. |
| Registration.DiscoveryPlatform.RegisterDiscoveredDevices | src/platform.ts:400-413 | An inventory is the sequence of its dispatches; one device's throw costs only its own turn. |
| Registration.DiscoveryPlatform.RemoveDiscoveredDevice | src/platform.ts:564-581 | A removal of an unknown accessory does nothing, a throwing one leaves everything, a successful one drops accessory, instance and listener. |
| Registration.DiscoveryPlatform.Persist | src/platform.ts:167-174 | The persist port writes only the accessory object the platform holds. |
| Registration.StepKeepsInv | src/platform.ts:193-381 | Every dispatch, removal and record write keeps listeners, object identities, owed writes and the suspended UUIDs. |
| Registration.StepsAskExactly | src/platform.ts:307-381 | Homebridge is asked to register exactly a known device it does not hold, whose family resolves and whose update does not throw, unless an earlier registration of it threw, and to unregister exactly one it holds. |
| Registration.DispatchesBind | src/platform.ts:193-381 | A dispatch leaves a held device bound to one instance, the one it had if it had one, and touches no other device's. |
| Registration.InstancesStaySeparate | src/platform.ts:211-229 | Over every run each device's instance is an object of its own. |
| Registration.UpdatesAreOwedExactlyWhen | src/platform.ts:240-302 | A held device carries what its update left, and is written exactly when that differs or a write was owed already. |
| Registration.RecordsWriteTheirOwn | src/platform.ts:167-174 | A record's own write lands for the accessory the platform holds and does nothing for any other. |
| Registration.RemovalsLeaveNothing | src/platform.ts:564-581 | A committed removal leaves no accessory, instance or listener, and a throwing one changes nothing. |
| Registration.RegistrationsAreUnique | src/platform.ts:307-381 | Over any sequence of inventories, removals and throwing calls, two registrations of a UUID have an unregistration between them, restored ones included, and none follows a registration that threw. |
| Registration.ListenersAndWritesAreKept | src/platform.ts:193-302 | Throughout, every instance is the only live-state listener of its device, and unwritten content stays owed. |
| Registration.OwedWritesArePaid | src/platform.ts:240-302 | The next inventory that lists the device writes what is owed even when nothing changed. |
| Registration.CandidatesAreNotWritten | src/platform.ts:167-174 | A record write of an accessory still being prepared changes nothing. |

## Left out

- Times, versions and counts are integers: fractional values, NaN and infinities, which the guards in the program refuse or which device fields could carry, are not modelled.
- HTTP, MQTT, WebSocket handshakes, the file system and real timers are outcomes and steps; a due timer fires before time passes it, and a cancelled one never fires.
- `src/cloud/sigv4.ts`, token fingerprints, `src/config.ts`, `src/runtime/failureLog.ts` and `src/device/registry.ts`: string assembly, small checks and tables, which would only add easy members.
- The rate-limited failure log, the log-once flags and every log line: wording, not state the guarantees rest on.
- Listener notification, changed-key lists, deep freezing and deep equality in `src/device/state.ts`: records are immutable maps compared by value.
- JavaScript map and set iteration order: loops over them take the elements in any order.
- PumpRecords.Reducer.Observe: the platform's persist port returns silently for an accessory that is not registered yet; the reducer's specification sees such a write as landed, and `Registration` models the port itself.
- AccountMonitoring.AccountRuntime.ApplyInventory: reads each clock once for the whole inventory, where the program reads it again for every device.
- AccountMonitoring.AccountRuntime.CommitRemovals: the failure-log entries a committed removal also drops are not modelled.
- AuthProtocol.AuthClient.RequestAnswered: the awaits for the response, its body and the abort check after them are one step; the temporary file, its salt and its fingerprint are one file operation.
- ShadowClient.Shadow.RetryFired: a transport notification is a macrotask, so none is delivered between a retry's reopening and the guard opening behind it; the microtasks in between are one step each.
- RuntimeLifecycle.AccountLoops.RunPoll: an inventory whose application throws before its first await is the same answer as a request that fails; what the inventory does to the store is `AccountMonitoring`.
- RuntimeLifecycle.AccountLoops.ShadowStarted: two openings can overlap, and the model keeps no identity for the clients, only that one is installed or closed.
- Controls.ControlBinder.HandleSetRequest: both control services exist; a press on a service that is not published cannot happen.
- Controls.ControlBinder.PublishControlRows: the two control rows alone; `BasementGuardian` models the whole catalogue.
- RedactedOutput.SecretsLeakExactlyWhenTheyClash: that an overlapping form does reach some output is stated for the plain form; the escaped form of a secret without an escaped character is the plain one, and for the others only the absence is proved. It asks for one character the secret lacks.
- Redaction.RedactText: the credential patterns are any non-empty spans within the text, and the JSON-escaped form of a secret is given with it; the built-in sort is an insertion.
- Gemini.ViolationsOf: vendor keys are a datatype with one constructor per field and one for every other key, not strings.
- Family-neutral decoding is the Gemini family's: the second, unsupported family never decodes.
- BasementGuardian.BasementGuardianAccessory.UpdateFrom: a HomeKit throw inside the publishing pass of a resolved family, which leaves the pass half done until the next update, is not modelled; throws in the refreshing pass are.
- BasementGuardian.BasementGuardianAccessory.PublishRow: the order of pushes within one service, service names, accessory information and write-handler binding are not modelled.
- BasementGuardian.UpdatesShowTheRecords: what the reducer holds after a snapshot is an argument of the update; which decoded facts feed it is not modelled.
- BasementGuardian.SwitchesServeNothingMadeUp: whether a press is refused or sent, and which requests are pending, is `Controls`; here any press, stored write, clearing push and closing window may come at any point.
- BasementGuardian.BasementGuardianAccessory.constructor: the restart passes of `src/accessories/staleMarking.ts` and the unreadable trust report of refused credentials act on the characteristics outside this instance; restored services start with nothing pushed by this run.
- Registration.DiscoveryPlatform.RegisterFirstSeen: the UUID is the device identifier, so hash collisions are not modelled; names, contexts and service lists are one opaque content value.
- Registration.DiscoveryPlatform.UpdateDiscoveredDevice: a service set changed by a live update between polls is compared only from the next poll on, as in the program, and is not counted as owed before.
