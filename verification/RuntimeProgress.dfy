/**
 * What each stretch of the account runtime says and where it leaves its task
 * (`src/runtime/accountRuntime.ts`): the ends come exactly from a refusal or a stop,
 * and a runtime that has not ended keeps polling, rotating and reconnecting.
 */
module RuntimeProgress {
  import opened Wrappers
  import opened RuntimeLifecycle

  /** A final refusal answers a request of a runtime that has not been stopped. */
  predicate IsRefusal(s: Runtime, e: Event)
    requires Enabled(s, e)
  {
    && e.Resumes? && e.answer.CredentialsRefused? && !s.stopped
    && s.tasks[e.task] in {LaunchFetching, LaunchChecking, PollFetching, PollChecking, RotationFetching}
  }

  // ---- What a step says ----

  predicate Fetched(place: Place) {
    place.LaunchApplied? || place.PollApplied?
  }

  /** A request for the inventory that failed for a reason the polling path reports. */
  predicate PollFails(place: Place, answer: Answer) {
    || (place.PollFetching? && !answer.Inventory? && !answer.CredentialsRefused?)
    || (place.LaunchFetching? && !answer.Inventory? && !answer.CredentialsRefused? && !answer.Throttled?)
  }

  /** Whether polling counts as succeeding after a stretch: only a running task moves it. */
  predicate PolledBy(s: Runtime, e: Event)
    requires Enabled(s, e) && e.Resumes?
  {
    if s.halted || s.stopped then s.polling
    else Fetched(s.tasks[e.task]) || (!PollFails(s.tasks[e.task], e.answer) && s.polling)
  }

  function ClosedNow(s: Runtime): seq<Effect> {
    if s.hasShadow then [ShadowClosed] else []
  }

  /** The effects of one step, told from the state before it and the answer. */
  function Said(s: Runtime, e: Event): seq<Effect>
    requires Enabled(s, e)
  {
    var running := !s.halted && !s.stopped;
    match e
    case RecoveryReported => [TrustPushed(running && s.polling)]
    case Stops => if s.stopped then [] else [StopRequested, TrustPushed(false)] + ClosedNow(s)
    case Resumes(t, answer, _) =>
      var place := s.tasks[t];
      if IsRefusal(s, e) then if s.halted then [] else [AuthenticationStopRecorded, TrustPushed(false)] + ClosedNow(s)
      else if place.OpeningShadow? && answer.Opened? then [if running then ShadowInstalled else ShadowClosed]
      else if !running then []
      else if Fetched(place) then [PollOutcome(true), TrustPushed(true)]
      else if PollFails(place, answer) then [PollOutcome(false), TrustPushed(false)]
      else if (place.LaunchChecking? || place.PollChecking?) && answer.Inventory? then [RemovalCommits]
      else []
  }

  // ---- Where a step leaves its task ----

  /** Whether a stretch that tries the shadow opens a connection: credentials, devices, and a membership not served yet. */
  predicate Opens(hasCredentials: bool, hasShadow: bool, membership: Membership) {
    hasCredentials && !membership.NoDevices? && (!hasShadow || membership.Unserved?)
  }

  /** Where a task goes from its await while the runtime has not ended. */
  function Onward(s: Runtime, e: Event): Place
    requires Enabled(s, e) && e.Resumes?
  {
    var fetched := if e.answer.Inventory? && e.answer.confirmsAbsence then true else false;
    match s.tasks[e.task]
    case Restoring => LaunchFetching
    case LaunchFetching =>
      if e.answer.Inventory? then if fetched then LaunchChecking else LaunchApplied
      else if e.answer.Throttled? then RelaunchWaiting else PollWaiting
    case LaunchChecking => LaunchApplied
    case LaunchApplied => PollWaiting
    case RelaunchWaiting => LaunchFetching
    case PollWaiting => PollFetching
    case PollFetching => if e.answer.Inventory? then if fetched then PollChecking else PollApplied else PollWaiting
    case PollChecking => PollApplied
    case PollApplied => if !s.retryingShadow && Opens(s.hasCredentials, s.hasShadow, e.membership) then OpeningShadow(ByPoll) else PollWaiting
    case RotationWaiting => RotationFetching
    case RotationFetching =>
      if e.answer.Credentials? && !s.hasCredentials && !s.retryingShadow && Opens(true, s.hasShadow, e.membership) then OpeningShadow(ByRotation)
      else RotationWaiting
    case RetryWaiting =>
      if Opens(s.hasCredentials, s.hasShadow, e.membership) then OpeningShadow(ByRetry) else if s.hasShadow then Over else RetryWaiting
    case OpeningShadow(opener) =>
      (match opener
       case ByPoll => PollWaiting
       case ByRotation => RotationWaiting
       case ByRetry => if s.hasShadow || e.answer.Opened? then Over else RetryWaiting)
    case Over => Over
  }

  /** What a step starts beside its own task: the two background loops behind a launch, or a retry chain behind an opening that threw. */
  function Begun(s: Runtime, e: Event): seq<Place>
    requires Enabled(s, e) && e.Resumes?
  {
    var place := s.tasks[e.task];
    if place.LaunchApplied? || (place.LaunchFetching? && PollFails(place, e.answer)) then [RotationFetching]
    else if place.OpeningShadow? && !place.opener.ByRetry? && !e.answer.Opened? then [if s.hasShadow then Over else RetryWaiting]
    else []
  }

  /** What one stretch makes of the flags: credentials and a shadow, once had, are kept, and the poll's answer is the latest one. */
  ghost predicate FlagsMove(s: Runtime, e: Event, t: Runtime)
    requires Enabled(s, e) && e.Resumes?
  {
    var place := s.tasks[e.task];
    && (t.hasCredentials <==> s.hasCredentials || (place.RotationFetching? && e.answer.Credentials?))
    && (t.hasShadow <==> s.hasShadow || (place.OpeningShadow? && e.answer.Opened?))
    && t.polling == PolledBy(s, e)
  }

  /** Whether a retry chain is under way: up with the chain that begins, down with the one that ends. */
  ghost predicate RetryFlagMoves(s: Runtime, e: Event, t: Runtime)
    requires Enabled(s, e) && e.Resumes?
  {
    t.retryingShadow ==
      if IsRetryTask(s.tasks[e.task]) && Onward(s, e).Over? then false
      else if |Begun(s, e)| == 1 && !Begun(s, e)[0].RotationFetching? then Begun(s, e)[0].RetryWaiting?
      else s.retryingShadow
  }

  predicate IsRetryTask(place: Place) {
    place in {RetryWaiting, OpeningShadow(ByRetry)}
  }

  /** All there is to say about one stretch: the ends, the effects, and while the runtime goes on its tasks and flags. */
  ghost predicate Told(s: Runtime, e: Event, t: Runtime)
    requires Enabled(s, e) && e.Resumes?
  {
    && (t.halted <==> s.halted || IsRefusal(s, e))
    && t.stopped == s.stopped
    && t.effects == s.effects + Said(s, e)
    && t.polling == PolledBy(s, e)
    && (!HasFinished(t) ==>
          && t.tasks == s.tasks[e.task := Onward(s, e)] + Begun(s, e)
          && FlagsMove(s, e, t)
          && RetryFlagMoves(s, e, t))
  }

  /** A refusal that halts the runtime says so, withdraws the transport and closes the shadow. */
  lemma HaltSays(s: Runtime)
    ensures Halt(s) == s.(halted := true,
                          effects := s.effects + if s.halted then [] else [AuthenticationStopRecorded, TrustPushed(false)] + ClosedNow(s))
  {
    var said := s.effects + [AuthenticationStopRecorded] + [TrustPushed(false)];
    assert said == s.effects + [AuthenticationStopRecorded, TrustPushed(false)];
    assert said + [ShadowClosed] == s.effects + ([AuthenticationStopRecorded, TrustPushed(false)] + [ShadowClosed]);
    assert s.effects + [] == s.effects && said + [] == said;
  }

  lemma RecordingSays(s: Runtime, succeeded: bool)
    requires !HasFinished(s)
    ensures PollRecorded(s, succeeded) == s.(polling := succeeded, effects := s.effects + [PollOutcome(succeeded), TrustPushed(succeeded)])
  {
    assert s.effects + [PollOutcome(succeeded)] + [TrustPushed(succeeded)] == s.effects + [PollOutcome(succeeded), TrustPushed(succeeded)];
  }

  lemma RestoringIsTold(s: Runtime, e: Event)
    requires Enabled(s, e) && e.Resumes? && s.tasks[e.task].Restoring?
    ensures Told(s, e, Step(s, e))
  {
  }

  lemma LaunchFetchingRefusedIsTold(s: Runtime, e: Event)
    requires Enabled(s, e) && e.Resumes? && s.tasks[e.task].LaunchFetching? && e.answer.CredentialsRefused?
    ensures Told(s, e, Step(s, e))
  {
    HaltSays(s);
    assert Step(s, e) == LaunchFailed(s, e.task, e.answer);
    assert s.effects + [] == s.effects;
  }

  lemma LaunchFetchingFailedIsTold(s: Runtime, e: Event)
    requires Enabled(s, e) && e.Resumes? && s.tasks[e.task].LaunchFetching? && !e.answer.CredentialsRefused? && !e.answer.Inventory?
    ensures Told(s, e, Step(s, e))
  {
    assert Step(s, e) == LaunchFailed(s, e.task, e.answer);
    if !HasFinished(s) {
      RecordingSays(s, false);
    }
  }

  lemma LaunchFetchingIsTold(s: Runtime, e: Event)
    requires Enabled(s, e) && e.Resumes? && s.tasks[e.task].LaunchFetching?
    ensures Told(s, e, Step(s, e))
  {
    if e.answer.CredentialsRefused? {
      LaunchFetchingRefusedIsTold(s, e);
    } else if !e.answer.Inventory? {
      LaunchFetchingFailedIsTold(s, e);
    }
  }

  lemma LaunchCheckingIsTold(s: Runtime, e: Event)
    requires Enabled(s, e) && e.Resumes? && s.tasks[e.task].LaunchChecking?
    ensures Told(s, e, Step(s, e))
  {
    HaltSays(s);
    assert s.effects + [] == s.effects;
  }

  lemma LaunchAppliedIsTold(s: Runtime, e: Event)
    requires Enabled(s, e) && e.Resumes? && s.tasks[e.task].LaunchApplied?
    ensures Told(s, e, Step(s, e))
  {
  }

  lemma PollFetchingRefusedIsTold(s: Runtime, e: Event)
    requires Enabled(s, e) && e.Resumes? && s.tasks[e.task].PollFetching? && e.answer.CredentialsRefused?
    ensures Told(s, e, Step(s, e))
  {
    HaltSays(s);
    assert Step(s, e) == PollFailed(s, e.task, e.answer);
    assert s.effects + [] == s.effects;
  }

  lemma PollFetchingFailedIsTold(s: Runtime, e: Event)
    requires Enabled(s, e) && e.Resumes? && s.tasks[e.task].PollFetching? && !e.answer.CredentialsRefused? && !e.answer.Inventory?
    ensures Told(s, e, Step(s, e))
  {
    assert Step(s, e) == PollFailed(s, e.task, e.answer);
    if !HasFinished(s) {
      RecordingSays(s, false);
    }
  }

  lemma PollFetchingIsTold(s: Runtime, e: Event)
    requires Enabled(s, e) && e.Resumes? && s.tasks[e.task].PollFetching?
    ensures Told(s, e, Step(s, e))
  {
    if e.answer.CredentialsRefused? {
      PollFetchingRefusedIsTold(s, e);
    } else if !e.answer.Inventory? {
      PollFetchingFailedIsTold(s, e);
    }
  }

  lemma PollCheckingIsTold(s: Runtime, e: Event)
    requires Enabled(s, e) && e.Resumes? && s.tasks[e.task].PollChecking?
    ensures Told(s, e, Step(s, e))
  {
    HaltSays(s);
    assert s.effects + [] == s.effects;
  }

  lemma PollAppliedIsTold(s: Runtime, e: Event)
    requires Enabled(s, e) && e.Resumes? && s.tasks[e.task].PollApplied?
    ensures Told(s, e, Step(s, e))
  {
  }

  lemma RotationFetchingIsTold(s: Runtime, e: Event)
    requires Enabled(s, e) && e.Resumes? && s.tasks[e.task].RotationFetching?
    ensures Told(s, e, Step(s, e))
  {
  }

  lemma RetryWaitingIsTold(s: Runtime, e: Event)
    requires Enabled(s, e) && e.Resumes? && s.tasks[e.task].RetryWaiting?
    ensures Told(s, e, Step(s, e))
  {
  }

  lemma OpeningShadowThrewIsTold(s: Runtime, e: Event)
    requires Enabled(s, e) && e.Resumes? && s.tasks[e.task].OpeningShadow? && !e.answer.Opened? && !s.tasks[e.task].opener.ByRetry?
    ensures Told(s, e, Step(s, e))
  {
    assert Step(s, e) == After(RetryStarted(s), e.task, s.tasks[e.task].opener);
    assert Step(s, e).effects == s.effects + [];
  }

  lemma RetryThrewIsTold(s: Runtime, e: Event)
    requires Enabled(s, e) && e.Resumes? && s.tasks[e.task] == OpeningShadow(ByRetry) && !e.answer.Opened?
    ensures Told(s, e, Step(s, e))
  {
    assert Step(s, e) == NextRetry(s, e.task);
    assert Step(s, e).effects == s.effects + [];
  }

  lemma OpeningShadowIsTold(s: Runtime, e: Event)
    requires Enabled(s, e) && e.Resumes? && s.tasks[e.task].OpeningShadow?
    ensures Told(s, e, Step(s, e))
  {
    if !e.answer.Opened? {
      if s.tasks[e.task].opener.ByRetry? {
        RetryThrewIsTold(s, e);
      } else {
        OpeningShadowThrewIsTold(s, e);
      }
    }
  }

  lemma StretchesAreTold(s: Runtime, e: Event)
    requires Enabled(s, e) && e.Resumes?
    ensures Told(s, e, Step(s, e))
  {
    match s.tasks[e.task]
    case Restoring => RestoringIsTold(s, e);
    case LaunchFetching => LaunchFetchingIsTold(s, e);
    case LaunchChecking => LaunchCheckingIsTold(s, e);
    case LaunchApplied => LaunchAppliedIsTold(s, e);
    case PollFetching => PollFetchingIsTold(s, e);
    case PollChecking => PollCheckingIsTold(s, e);
    case PollApplied => PollAppliedIsTold(s, e);
    case RotationFetching => RotationFetchingIsTold(s, e);
    case RetryWaiting => RetryWaitingIsTold(s, e);
    case OpeningShadow(_) => OpeningShadowIsTold(s, e);
    case _ =>
  }

  /** Every step says exactly this, in this order, and nothing else. */
  lemma StepSaysExactly(s: Runtime, e: Event)
    requires Enabled(s, e)
    ensures Step(s, e).effects == s.effects + Said(s, e)
  {
    if e.Resumes? {
      StretchesAreTold(s, e);
    }
  }

  /** While the runtime has not ended every stretch takes its task onward, starts exactly these others and leaves the rest parked. */
  lemma TasksGoOn(s: Runtime, e: Event)
    requires Enabled(s, e) && e.Resumes? && !HasFinished(Step(s, e))
    ensures Step(s, e).tasks == s.tasks[e.task := Onward(s, e)] + Begun(s, e)
  {
    StretchesAreTold(s, e);
  }

  lemma FlagsGoOn(s: Runtime, e: Event)
    requires Enabled(s, e) && !HasFinished(Step(s, e))
    ensures if e.Resumes? then FlagsMove(s, e, Step(s, e)) else Step(s, e).(effects := s.effects) == s
  {
    if e.Resumes? {
      StretchesAreTold(s, e);
    }
  }

  // ---- How it ends ----

  /** A wait that a stop cuts short is the end of its task: no request follows it. */
  lemma AbortedWaitsAreOver(s: Runtime, e: Event)
    requires Enabled(s, e) && e.Resumes? && IsWait(s.tasks[e.task]) && e.answer.Aborted?
    ensures Step(s, e) == s.(tasks := s.tasks[e.task := Over], retryingShadow := s.retryingShadow && !s.tasks[e.task].RetryWaiting?)
  {
  }

  predicate Waits(s: Runtime, t: nat) {
    t < |s.tasks| && IsWait(s.tasks[t])
  }

  lemma HaltedLaunchesDoNotWait(s: Runtime, e: Event)
    requires Enabled(s, e) && e.Resumes? && Step(s, e).halted
    requires s.tasks[e.task] in {Restoring, LaunchFetching, LaunchChecking, LaunchApplied, RelaunchWaiting}
    ensures !Waits(Step(s, e), e.task)
  {
    HaltSays(s);
  }

  lemma HaltedPollsDoNotWait(s: Runtime, e: Event)
    requires Enabled(s, e) && e.Resumes? && Step(s, e).halted
    requires s.tasks[e.task] in {PollWaiting, PollFetching, PollChecking, PollApplied}
    ensures !Waits(Step(s, e), e.task)
  {
    HaltSays(s);
  }

  lemma HaltedRotationsDoNotWait(s: Runtime, e: Event)
    requires Enabled(s, e) && e.Resumes? && Step(s, e).halted
    requires s.tasks[e.task] in {RotationFetching, RotationWaiting, RetryWaiting}
    ensures !Waits(Step(s, e), e.task)
  {
    HaltSays(s);
  }

  lemma HaltedOpeningsDoNotWait(s: Runtime, e: Event)
    requires Enabled(s, e) && e.Resumes? && Step(s, e).halted && s.tasks[e.task].OpeningShadow?
    ensures !Waits(Step(s, e), e.task)
  {
    EndsExactlyWhen(s, e);
    var opener := s.tasks[e.task].opener;
    AfterDoesNotWait(RetryStarted(s), e.task, opener);
    AfterDoesNotWait(Did(s, ShadowClosed), e.task, opener);
    AfterDoesNotWait(s, e.task, opener);
  }

  lemma AfterDoesNotWait(s: Runtime, t: nat, opener: Opener)
    requires s.halted && t < |s.tasks|
    ensures !Waits(After(s, t, opener), t)
  {
  }

  /** A halted runtime starts no wait: what a task leaves its await for is its end, or a request already out. */
  lemma HaltedTasksDoNotWait(s: Runtime, e: Event)
    requires Enabled(s, e) && e.Resumes? && Step(s, e).halted
    ensures !Waits(Step(s, e), e.task)
  {
    match s.tasks[e.task]
    case OpeningShadow(_) => HaltedOpeningsDoNotWait(s, e);
    case RotationFetching => HaltedRotationsDoNotWait(s, e);
    case RotationWaiting => HaltedRotationsDoNotWait(s, e);
    case RetryWaiting => HaltedRotationsDoNotWait(s, e);
    case PollWaiting => HaltedPollsDoNotWait(s, e);
    case PollFetching => HaltedPollsDoNotWait(s, e);
    case PollChecking => HaltedPollsDoNotWait(s, e);
    case PollApplied => HaltedPollsDoNotWait(s, e);
    case Over =>
    case _ => HaltedLaunchesDoNotWait(s, e);
  }

  /** The runtime halts exactly at a refusal and stops exactly when it is asked to. */
  lemma EndsExactlyWhen(s: Runtime, e: Event)
    requires Enabled(s, e)
    ensures Step(s, e).halted <==> s.halted || IsRefusal(s, e)
    ensures Step(s, e).stopped <==> s.stopped || e.Stops?
  {
    if e.Resumes? {
      StretchesAreTold(s, e);
    }
  }

  ghost predicate EverRefused(s: Runtime, es: seq<Event>)
    requires Possible(s, es)
    decreases |es|
  {
    es != [] && (IsRefusal(s, es[0]) || EverRefused(Step(s, es[0]), es[1..]))
  }

  /** Over every run: halted exactly when some request was refused before a stop, stopped exactly when a stop was asked for. */
  lemma {:induction false} RunEndsExactlyWhen(s: Runtime, es: seq<Event>)
    requires Possible(s, es)
    ensures Run(s, es).halted <==> s.halted || EverRefused(s, es)
    ensures Run(s, es).stopped <==> s.stopped || exists k :: 0 <= k < |es| && es[k].Stops?
    decreases |es|
  {
    if es != [] {
      EndsExactlyWhen(s, es[0]);
      RunEndsExactlyWhen(Step(s, es[0]), es[1..]);
      assert forall k :: 0 <= k < |es[1..]| ==> es[1..][k] == es[k + 1];
      if k :| 0 <= k < |es| && es[k].Stops? {
        assert k > 0 ==> es[1..][k - 1].Stops?;
      }
    }
  }

  lemma FreshRuntimesEndExactlyWhen(es: seq<Event>)
    requires Possible(Started, es)
    ensures Run(Started, es).halted <==> EverRefused(Started, es)
    ensures Run(Started, es).stopped <==> exists k :: 0 <= k < |es| && es[k].Stops?
  {
    RunEndsExactlyWhen(Started, es);
  }

  // ---- What a pushed trust says ----

  /** What the latest recorded poll said, and that the transport is not ready before the first. */
  function LatestOutcome(effects: seq<Effect>): bool {
    if effects == [] then false
    else if effects[|effects| - 1].PollOutcome? then effects[|effects| - 1].succeeded
    else LatestOutcome(effects[..|effects| - 1])
  }

  /** Every pushed trust says the transport is ready exactly when the latest recorded poll succeeded and neither end came before it. */
  ghost predicate TrustIsTrue(effects: seq<Effect>) {
    forall i :: 0 <= i < |effects| && effects[i].TrustPushed? ==>
      (effects[i].commandTransportReady <==> LatestOutcome(effects[..i]) && forall j :: 0 <= j < i ==> !IsEnd(effects[j]))
  }

  /** A state whose flags say what its effects said: the latest poll, and whether an end came. */
  ghost predicate FlagsAreSaid(effects: seq<Effect>, polling: bool, ended: bool) {
    && TrustIsTrue(effects)
    && polling == LatestOutcome(effects)
    && (ended <==> exists i :: 0 <= i < |effects| && IsEnd(effects[i]))
  }

  lemma OneMoreIsSaid(effects: seq<Effect>, polling: bool, ended: bool, effect: Effect)
    requires FlagsAreSaid(effects, polling, ended)
    requires effect.TrustPushed? ==> (effect.commandTransportReady <==> polling && !ended)
    ensures FlagsAreSaid(effects + [effect], if effect.PollOutcome? then effect.succeeded else polling, ended || IsEnd(effect))
  {
    var all := effects + [effect];
    assert all[..|effects|] == effects;
    forall i | 0 <= i < |effects| ensures all[i] == effects[i] && all[..i] == effects[..i] {
    }
    if IsEnd(effect) {
      assert IsEnd(all[|effects|]);
    } else if ended {
      var i :| 0 <= i < |effects| && IsEnd(effects[i]);
      assert IsEnd(all[i]);
    }
  }

  lemma APollIsSaid(effects: seq<Effect>, polling: bool, succeeded: bool)
    requires FlagsAreSaid(effects, polling, false)
    ensures FlagsAreSaid(effects + [PollOutcome(succeeded), TrustPushed(succeeded)], succeeded, false)
  {
    OneMoreIsSaid(effects, polling, false, PollOutcome(succeeded));
    OneMoreIsSaid(effects + [PollOutcome(succeeded)], succeeded, false, TrustPushed(succeeded));
    assert effects + [PollOutcome(succeeded)] + [TrustPushed(succeeded)] == effects + [PollOutcome(succeeded), TrustPushed(succeeded)];
  }

  /** The shapes a step's effects can have, with an end first wherever there is one. */
  ghost predicate WellSaid(said: seq<Effect>, polling: bool, ended: bool) {
    || said == []
    || (|said| == 1 && !said[0].PollOutcome? && !IsEnd(said[0]) && (said[0].TrustPushed? ==> (said[0].commandTransportReady <==> polling && !ended)))
    || (!ended && (said == [PollOutcome(true), TrustPushed(true)] || said == [PollOutcome(false), TrustPushed(false)]))
    || (|said| >= 2 && IsEnd(said[0]) && said[1] == TrustPushed(false) && (|said| == 2 || (|said| == 3 && said[2].ShadowClosed?)))
  }

  predicate PollingAfter(said: seq<Effect>, polling: bool) {
    if said != [] && said[0].PollOutcome? then said[0].succeeded else polling
  }

  predicate EndedAfter(said: seq<Effect>, ended: bool) {
    ended || (said != [] && IsEnd(said[0]))
  }

  lemma SaidTogether(effects: seq<Effect>, polling: bool, ended: bool, said: seq<Effect>)
    requires FlagsAreSaid(effects, polling, ended) && WellSaid(said, polling, ended)
    ensures FlagsAreSaid(effects + said, PollingAfter(said, polling), EndedAfter(said, ended))
  {
    if said == [] {
      assert effects + [] == effects;
    } else if |said| == 1 {
      OneMoreIsSaid(effects, polling, ended, said[0]);
      assert said == [said[0]];
    } else if said[0].PollOutcome? {
      APollIsSaid(effects, polling, said[0].succeeded);
    } else {
      AnEndIsSaid(effects, polling, ended, said);
    }
  }

  /** An end says itself, withdraws the transport, and perhaps closes the shadow. */
  lemma AnEndIsSaid(effects: seq<Effect>, polling: bool, ended: bool, said: seq<Effect>)
    requires FlagsAreSaid(effects, polling, ended) && WellSaid(said, polling, ended) && |said| > 1 && IsEnd(said[0])
    ensures FlagsAreSaid(effects + said, polling, true)
  {
    var once, twice := effects + [said[0]], effects + [said[0]] + [said[1]];
    OneMoreIsSaid(effects, polling, ended, said[0]);
    OneMoreIsSaid(once, polling, true, said[1]);
    if |said| == 3 {
      OneMoreIsSaid(twice, polling, true, said[2]);
      assert twice + [said[2]] == effects + said;
    } else {
      assert twice == effects + said;
    }
  }

  lemma StepsAreWellSaid(s: Runtime, e: Event)
    requires Enabled(s, e)
    ensures WellSaid(Said(s, e), s.polling, HasFinished(s))
    ensures e.Resumes? ==> PolledBy(s, e) == PollingAfter(Said(s, e), s.polling)
    ensures EndedAfter(Said(s, e), HasFinished(s)) <==> HasFinished(s) || e.Stops? || IsRefusal(s, e)
  {
  }

  lemma StepKeepsFlagsSaid(s: Runtime, e: Event)
    requires Enabled(s, e) && FlagsAreSaid(s.effects, s.polling, HasFinished(s))
    ensures FlagsAreSaid(Step(s, e).effects, Step(s, e).polling, HasFinished(Step(s, e)))
  {
    StepSaysExactly(s, e);
    EndsExactlyWhen(s, e);
    StepsAreWellSaid(s, e);
    PollingIsSaid(s, e);
    SaidTogether(s.effects, s.polling, HasFinished(s), Said(s, e));
  }

  lemma PollingIsSaid(s: Runtime, e: Event)
    requires Enabled(s, e)
    ensures Step(s, e).polling == PollingAfter(Said(s, e), s.polling)
  {
    StepsAreWellSaid(s, e);
    if e.Resumes? {
      StretchesAreTold(s, e);
    }
  }

  lemma {:induction false} RunKeepsFlagsSaid(s: Runtime, es: seq<Event>)
    requires Possible(s, es) && FlagsAreSaid(s.effects, s.polling, HasFinished(s))
    ensures FlagsAreSaid(Run(s, es).effects, Run(s, es).polling, HasFinished(Run(s, es)))
    decreases |es|
  {
    if es != [] {
      StepKeepsFlagsSaid(s, es[0]);
      RunKeepsFlagsSaid(Step(s, es[0]), es[1..]);
    }
  }

  /**
   * Over every run from the start, whoever pushed it and whenever: a pushed trust says
   * the command transport is ready if and only if the latest recorded poll succeeded and
   * the runtime had neither halted nor been stopped.
   */
  lemma PushedTrustIsTrue(es: seq<Event>)
    requires Possible(Started, es)
    ensures TrustIsTrue(Run(Started, es).effects)
  {
    RunKeepsFlagsSaid(Started, es);
  }

  // ---- The loops stay alive ----

  predicate IsInventoryTask(place: Place) {
    place in {Restoring, LaunchFetching, LaunchChecking, LaunchApplied, RelaunchWaiting, PollWaiting, PollFetching, PollChecking, PollApplied, OpeningShadow(ByPoll)}
  }

  predicate IsLaunchTask(place: Place) {
    place in {Restoring, LaunchFetching, LaunchChecking, LaunchApplied, RelaunchWaiting}
  }

  predicate IsRotationTask(place: Place) {
    place in {RotationFetching, RotationWaiting, OpeningShadow(ByRotation)}
  }

  /** Task `i` is the one that fetches inventories. */
  ghost predicate FetchesAlone(tasks: seq<Place>, i: nat) {
    i < |tasks| && IsInventoryTask(tasks[i]) && forall j :: 0 <= j < |tasks| && IsInventoryTask(tasks[j]) ==> j == i
  }

  /** Task `r` is the one that rotates credentials. */
  ghost predicate RotatesAlone(tasks: seq<Place>, r: nat) {
    r < |tasks| && IsRotationTask(tasks[r]) && forall j :: 0 <= j < |tasks| && IsRotationTask(tasks[j]) ==> j == r
  }

  /** Exactly one task fetches inventories; until it has launched nothing else runs, and from then on exactly one rotates credentials. */
  ghost predicate LoopsAreAlive(tasks: seq<Place>) {
    exists i: nat :: FetchesAlone(tasks, i) && if IsLaunchTask(tasks[i]) then |tasks| == 1 else exists r: nat :: RotatesAlone(tasks, r)
  }

  lemma FetchingMovesOn(tasks: seq<Place>, t: nat, next: Place, more: seq<Place>, i: nat)
    requires FetchesAlone(tasks, i) && t < |tasks|
    requires IsInventoryTask(tasks[t]) <==> IsInventoryTask(next)
    requires forall place :: place in more ==> !IsInventoryTask(place)
    ensures FetchesAlone(tasks[t := next] + more, i)
  {
    var moved := tasks[t := next] + more;
    assert forall j :: |tasks| <= j < |moved| ==> moved[j] in more;
  }

  lemma RotatingMovesOn(tasks: seq<Place>, t: nat, next: Place, more: seq<Place>, r: nat)
    requires RotatesAlone(tasks, r) && t < |tasks|
    requires IsRotationTask(tasks[t]) <==> IsRotationTask(next)
    requires forall place :: place in more ==> !IsRotationTask(place)
    ensures RotatesAlone(tasks[t := next] + more, r)
  {
    var moved := tasks[t := next] + more;
    assert forall j :: |tasks| <= j < |moved| ==> moved[j] in more;
  }

  lemma OneTaskMovesOn(tasks: seq<Place>, t: nat, next: Place, more: seq<Place>)
    requires LoopsAreAlive(tasks) && t < |tasks|
    requires IsRotationTask(tasks[t]) <==> IsRotationTask(next)
    requires IsInventoryTask(tasks[t]) <==> IsInventoryTask(next)
    requires forall place :: place in more ==> !IsInventoryTask(place)
    requires if IsLaunchTask(tasks[t]) && !IsLaunchTask(next) then |more| == 1 && IsRotationTask(more[0])
             else forall place :: place in more ==> !IsRotationTask(place)
    requires IsLaunchTask(next) ==> IsLaunchTask(tasks[t]) && more == []
    ensures LoopsAreAlive(tasks[t := next] + more)
  {
    var moved := tasks[t := next] + more;
    var i: nat :| FetchesAlone(tasks, i) && if IsLaunchTask(tasks[i]) then |tasks| == 1 else exists r :: RotatesAlone(tasks, r);
    FetchingMovesOn(tasks, t, next, more, i);
    if !IsLaunchTask(tasks[i]) {
      var r: nat :| RotatesAlone(tasks, r);
      RotatingMovesOn(tasks, t, next, more, r);
    } else if !IsLaunchTask(next) {
      assert RotatesAlone(moved, 1);
    }
  }

  lemma StepKeepsLoopsAlive(s: Runtime, e: Event)
    requires Enabled(s, e) && LoopsAreAlive(s.tasks) && !HasFinished(Step(s, e))
    ensures LoopsAreAlive(Step(s, e).tasks)
  {
    if e.Resumes? {
      EndsExactlyWhen(s, e);
      TasksGoOn(s, e);
      OneTaskMovesOn(s.tasks, e.task, Onward(s, e), Begun(s, e));
    }
  }

  /**
   * As long as a runtime has neither halted nor been stopped, its loops stay alive:
   * through every failure exactly one task goes on fetching inventories, and from the
   * end of the launch on exactly one goes on rotating credentials.
   */
  lemma {:induction false} LoopsStayAlive(s: Runtime, es: seq<Event>)
    requires LoopsAreAlive(s.tasks) && Possible(s, es) && !HasFinished(Run(s, es))
    ensures LoopsAreAlive(Run(s, es).tasks)
    decreases |es|
  {
    if es != [] {
      RunEndsExactlyWhen(Step(s, es[0]), es[1..]);
      StepKeepsLoopsAlive(s, es[0]);
      LoopsStayAlive(Step(s, es[0]), es[1..]);
    }
  }

  lemma FreshLoopsStayAlive(es: seq<Event>)
    requires Possible(Started, es) && !HasFinished(Run(Started, es))
    ensures LoopsAreAlive(Run(Started, es).tasks)
  {
    assert FetchesAlone(Started.tasks, 0);
    LoopsStayAlive(Started, es);
  }

  // ---- Retry chains ----

  ghost function Chains(s: Runtime): set<nat> {
    set t: nat | t < |s.tasks| && IsRetryTask(s.tasks[t])
  }

  /** A retry chain is under way exactly while the flag that keeps other openers out is up, and there is one at most. */
  ghost predicate OneChain(s: Runtime) {
    && (forall t, u :: t in Chains(s) && u in Chains(s) ==> t == u)
    && (s.retryingShadow <==> Chains(s) != {})
  }

  /** An opening that was under way beside a retry chain throws, and starts a second one. */
  predicate Doubles(s: Runtime, e: Event)
    requires Enabled(s, e)
  {
    && e.Resumes? && s.tasks[e.task].OpeningShadow? && !s.tasks[e.task].opener.ByRetry? && !e.answer.Opened?
    && s.retryingShadow
  }

  lemma ChainsMoveOn(s: Runtime, e: Event)
    requires Enabled(s, e) && e.Resumes? && !HasFinished(Step(s, e))
    ensures var next, more := Onward(s, e), Begun(s, e);
            Chains(Step(s, e)) == Chains(s) - {e.task} + (if IsRetryTask(next) then {e.task} else {})
                                  + (if |more| == 1 && IsRetryTask(more[0]) then {|s.tasks|} else {})
  {
    TasksGoOn(s, e);
    assert Step(s, e).tasks == s.tasks[e.task := Onward(s, e)] + Begun(s, e);
  }

  /** One chain at most survives a step of a runtime that goes on if and only if the step does not double it. */
  lemma OneChainBreaksExactlyWhen(s: Runtime, e: Event)
    requires Enabled(s, e) && OneChain(s) && !HasFinished(Step(s, e))
    ensures OneChain(Step(s, e)) <==> !Doubles(s, e)
  {
    if e.Resumes? {
      ChainsMoveOn(s, e);
      StretchesAreTold(s, e);
      var next, more := Onward(s, e), Begun(s, e);
      if IsRetryTask(s.tasks[e.task]) {
        assert e.task in Chains(s) && Chains(s) == {e.task} && more == [];
        assert Chains(Step(s, e)) == if IsRetryTask(next) then {e.task} else {};
      } else if Doubles(s, e) {
        var c :| c in Chains(s);
        assert c in Chains(Step(s, e)) && c < |s.tasks|;
        assert !s.hasShadow ==> |s.tasks| in Chains(Step(s, e));
      } else if s.tasks[e.task].OpeningShadow? && !e.answer.Opened? {
        assert Chains(s) == {} && !IsRetryTask(next);
        assert Chains(Step(s, e)) == if s.hasShadow then {} else {|s.tasks|};
      } else {
        assert e.task !in Chains(s) && !IsRetryTask(next) && (|more| == 1 ==> !IsRetryTask(more[0]));
        assert Chains(Step(s, e)) == Chains(s);
      }
    } else {
      assert Chains(Step(s, e)) == Chains(s);
    }
  }

  lemma RunOfMore(s: Runtime, e: Event, rest: seq<Event>)
    requires Enabled(s, e) && Possible(Step(s, e), rest)
    ensures Possible(s, [e] + rest) && Run(s, [e] + rest) == Run(Step(s, e), rest)
  {
    assert ([e] + rest)[1..] == rest;
  }

  /** A run given by the states it goes through. */
  lemma {:induction false} RunThrough(ss: seq<Runtime>, es: seq<Event>)
    requires |ss| == |es| + 1
    requires forall k :: 0 <= k < |es| ==> Enabled(ss[k], es[k]) && ss[k + 1] == Step(ss[k], es[k])
    ensures Possible(ss[0], es) && Run(ss[0], es) == ss[|es|]
    decreases |es|
  {
    if es != [] {
      RunThrough(ss[1..], es[1..]);
      RunOfMore(ss[0], es[0], es[1..]);
      assert es == [es[0]] + es[1..];
    }
  }

  lemma {:induction false} RunsJoin(s: Runtime, es: seq<Event>, more: seq<Event>)
    requires Possible(s, es) && Possible(Run(s, es), more)
    ensures Possible(s, es + more) && Run(s, es + more) == Run(Run(s, es), more)
    decreases |es|
  {
    if es == [] {
      assert es + more == more;
    } else {
      RunsJoin(Step(s, es[0]), es[1..], more);
      RunOfMore(s, es[0], es[1..] + more);
      assert es + more == [es[0]] + (es[1..] + more);
    }
  }

  const POLLED := [PollOutcome(true), TrustPushed(true)]
  const LAUNCHED := Runtime(true, false, false, false, false, false, [PollWaiting, RotationFetching], POLLED)
  const OPENING := LAUNCHED.(hasCredentials := true, tasks := [PollWaiting, OpeningShadow(ByRotation)])
  const OPENING_TWICE := OPENING.(tasks := [OpeningShadow(ByPoll), OpeningShadow(ByRotation)], effects := POLLED + POLLED)

  /** A launch that finds its devices leaves the two loops parked. */
  lemma ALaunch() returns (es: seq<Event>)
    ensures Possible(Started, es) && Run(Started, es) == LAUNCHED
  {
    es := [Resumes(0, Restored, Unserved), Resumes(0, Inventory(false), Unserved), Resumes(0, Elapsed, Unserved)];
    var applied := Started.(tasks := [LaunchApplied]);
    StepSaysExactly(applied, es[2]);
    TasksGoOn(applied, es[2]);
    assert Step(applied, es[2]).tasks == [PollWaiting] + [RotationFetching];
    RunThrough([Started, Started.(tasks := [LaunchFetching]), applied, LAUNCHED], es);
  }

  /** A poll tries the shadow while the first credentials are still trying. */
  lemma APollBesideAnOpening() returns (es: seq<Event>)
    ensures Possible(OPENING, es) && Run(OPENING, es) == OPENING_TWICE
  {
    es := [Resumes(0, Elapsed, Unserved), Resumes(0, Inventory(false), Unserved), Resumes(0, Elapsed, Unserved)];
    var applied := OPENING.(tasks := [PollApplied, OpeningShadow(ByRotation)]);
    StepSaysExactly(applied, es[2]);
    TasksGoOn(applied, es[2]);
    assert Step(applied, es[2]).effects == POLLED + POLLED;
    RunThrough([OPENING, OPENING.(tasks := [PollFetching, OpeningShadow(ByRotation)]), applied, OPENING_TWICE], es);
  }

  lemma BothOpeningsFail() returns (es: seq<Event>)
    ensures Possible(OPENING_TWICE, es) && Chains(Run(OPENING_TWICE, es)) == {2, 3} && !HasFinished(Run(OPENING_TWICE, es))
  {
    es := [Resumes(1, Fails, Unserved), Resumes(0, Fails, Unserved)];
    var once := OPENING_TWICE.(retryingShadow := true, tasks := [OpeningShadow(ByPoll), RotationWaiting, RetryWaiting]);
    var twice := once.(tasks := [PollWaiting, RotationWaiting, RetryWaiting, RetryWaiting]);
    RunThrough([OPENING_TWICE, once, twice], es);
  }

  /**
   * Two chains do happen: the first credentials and a poll both try to open the shadow
   * before either attempt has failed, and then both fail.
   */
  lemma TwoChainsCanRun() returns (es: seq<Event>)
    ensures Possible(Started, es) && Chains(Run(Started, es)) == {2, 3} && !HasFinished(Run(Started, es))
  {
    var launch := ALaunch();
    var rotation := [Resumes(1, Credentials, Unserved)];
    RunThrough([LAUNCHED, OPENING], rotation);
    var poll := APollBesideAnOpening();
    var fail := BothOpeningsFail();
    RunsJoin(OPENING, poll, fail);
    RunsJoin(LAUNCHED, rotation, poll + fail);
    RunsJoin(Started, launch, rotation + (poll + fail));
    es := launch + (rotation + (poll + fail));
  }
}
