/**
 * The account runtime's loops (`src/runtime/accountRuntime.ts`).
 *
 * Launch, polling, credential rotation and shadow retry are tasks that each park at
 * an await and are resumed in any order. A shutdown or a final refusal of the
 * credentials can come while any of them is parked anywhere.
 */
module RuntimeLifecycle {
  import opened Wrappers

  /** Who asked for the shadow connection that is being opened. */
  datatype Opener = ByPoll | ByRotation | ByRetry

  /** Where a task is parked. */
  datatype Place =
    | Restoring
    | LaunchFetching
    | LaunchChecking
    | LaunchApplied
    | RelaunchWaiting
    | PollWaiting
    | PollFetching
    | PollChecking
    | PollApplied
    | RotationFetching
    | RotationWaiting
    | RetryWaiting
    | OpeningShadow(opener: Opener)
    | Over

  /** The store's devices against the ones the installed shadow was started for. */
  datatype Membership = NoDevices | Served | Unserved

  /** What an await hands back. A wait elapses, unless the root signal's abort cuts it short. */
  datatype Answer =
    | Restored
    | Elapsed
    | Aborted
    | Inventory(confirmsAbsence: bool)
    | Credentials
    | Opened
    | CredentialsRefused
    | Throttled
    | Fails

  /** What the runtime does that somebody else can see, in order. */
  datatype Effect =
    | PollOutcome(succeeded: bool)
    | RemovalCommits
    | ShadowInstalled
    | ShadowClosed
    | TrustPushed(commandTransportReady: bool)
    | AuthenticationStopRecorded
    | StopRequested

  datatype Runtime = Runtime(
    polling: bool,
    halted: bool,
    stopped: bool,
    hasCredentials: bool,
    hasShadow: bool,
    retryingShadow: bool,
    tasks: seq<Place>,
    effects: seq<Effect>)

  datatype Event =
    | Resumes(task: nat, answer: Answer, membership: Membership)
    // A message from a device last reported silent reports the account's trust.
    | RecoveryReported
    | Stops

  predicate HasFinished(s: Runtime) {
    s.stopped || s.halted
  }

  function Ready(s: Runtime): bool {
    !s.stopped && !s.halted && s.polling
  }

  /** Nothing was done that somebody else can see, and neither end was reached: only tasks and plain flags moved. */
  predicate SaysNothing(s: Runtime, next: Runtime) {
    next.effects == s.effects && next.halted == s.halted && next.stopped == s.stopped
  }

  function Did(s: Runtime, effect: Effect): Runtime {
    s.(effects := s.effects + [effect])
  }

  function Pushes(s: Runtime): Runtime {
    Did(s, TrustPushed(Ready(s)))
  }

  function Parked(s: Runtime, t: nat, place: Place): (next: Runtime)
    ensures SaysNothing(s, next)
  {
    if t < |s.tasks| then s.(tasks := s.tasks[t := place]) else s
  }

  function Spawned(s: Runtime, place: Place): (next: Runtime)
    ensures SaysNothing(s, next)
  {
    s.(tasks := s.tasks + [place])
  }

  function CloseShadow(s: Runtime): Runtime {
    if s.hasShadow then Did(s, ShadowClosed) else s
  }

  function Halt(s: Runtime): Runtime {
    if s.halted then s else CloseShadow(Pushes(Did(s.(halted := true), AuthenticationStopRecorded)))
  }

  function PollRecorded(s: Runtime, succeeded: bool): Runtime {
    Pushes(Did(s.(polling := succeeded), PollOutcome(succeeded)))
  }

  function BackgroundStarted(s: Runtime, t: nat): (next: Runtime)
    ensures SaysNothing(s, next)
  {
    Spawned(Parked(s, t, if s.halted then Over else PollWaiting), RotationFetching)
  }

  function NextPoll(s: Runtime, t: nat): (next: Runtime)
    ensures SaysNothing(s, next)
  {
    Parked(s, t, if s.halted then Over else PollWaiting)
  }

  function NextRotation(s: Runtime, t: nat): (next: Runtime)
    ensures SaysNothing(s, next)
  {
    Parked(s, t, if s.halted then Over else RotationWaiting)
  }

  function NextRetry(s: Runtime, t: nat): (next: Runtime)
    ensures SaysNothing(s, next)
  {
    if !s.hasShadow && !s.stopped && !s.halted then Parked(s, t, RetryWaiting)
    else Parked(s, t, Over).(retryingShadow := false)
  }

  function After(s: Runtime, t: nat, opener: Opener): (next: Runtime)
    ensures SaysNothing(s, next)
  {
    match opener
    case ByPoll => NextPoll(s, t)
    case ByRotation => NextRotation(s, t)
    case ByRetry => NextRetry(s, t)
  }

  /** The shadow is opened only while the runtime runs, with credentials, for a membership it does not serve yet. */
  function AttemptShadow(s: Runtime, t: nat, opener: Opener, membership: Membership): (next: Runtime)
    ensures SaysNothing(s, next)
  {
    if HasFinished(s) || !s.hasCredentials || membership.NoDevices? || (s.hasShadow && membership.Served?) then After(s, t, opener)
    else Parked(s, t, OpeningShadow(opener))
  }

  function OpenShadow(s: Runtime, t: nat, opener: Opener, membership: Membership): (next: Runtime)
    ensures SaysNothing(s, next)
  {
    if s.retryingShadow then After(s, t, opener) else AttemptShadow(s, t, opener, membership)
  }

  /** A retry chain of its own begins, and ends at once when there is nothing left to open. */
  function RetryStarted(s: Runtime): (next: Runtime)
    ensures SaysNothing(s, next)
  {
    NextRetry(Spawned(s.(retryingShadow := true), RetryWaiting), |s.tasks|)
  }

  function ShadowOpened(s: Runtime, t: nat, opener: Opener, threw: bool): Runtime {
    if threw then
      if opener.ByRetry? then
        NextRetry(s, t)
      else
        After(RetryStarted(s), t, opener)
    else if HasFinished(s) then
      After(Did(s, ShadowClosed), t, opener)
    else
      After(Did(s.(hasShadow := true), ShadowInstalled), t, opener)
  }

  function LaunchFailed(s: Runtime, t: nat, answer: Answer): Runtime {
    if HasFinished(s) then Parked(s, t, Over)
    else if answer.CredentialsRefused? then Parked(Halt(s), t, Over)
    else if answer.Throttled? then Parked(s, t, RelaunchWaiting)
    else BackgroundStarted(PollRecorded(s, false), t)
  }

  function PollFailed(s: Runtime, t: nat, answer: Answer): Runtime {
    if s.stopped then NextPoll(s, t)
    else if answer.CredentialsRefused? then NextPoll(Halt(s), t)
    else if HasFinished(s) then NextPoll(s, t)
    else NextPoll(PollRecorded(s, false), t)
  }

  function LaunchResumed(s: Runtime, t: nat, place: Place, answer: Answer): Runtime
    requires place in {Restoring, LaunchFetching, LaunchChecking, LaunchApplied, RelaunchWaiting}
  {
    match place
    case Restoring => Parked(s, t, if HasFinished(s) then Over else LaunchFetching)
    case LaunchFetching =>
      if !answer.Inventory? then LaunchFailed(s, t, answer)
      else if HasFinished(s) then Parked(s, t, Over)
      else Parked(s, t, if answer.confirmsAbsence then LaunchChecking else LaunchApplied)
    case LaunchChecking =>
      if answer.CredentialsRefused? then LaunchFailed(s, t, answer)
      else if !answer.Inventory? || HasFinished(s) then Parked(s, t, LaunchApplied)
      else Parked(Did(s, RemovalCommits), t, LaunchApplied)
    case LaunchApplied =>
      if HasFinished(s) then Parked(s, t, Over) else BackgroundStarted(PollRecorded(s, true), t)
    case RelaunchWaiting => Parked(s, t, if answer.Elapsed? then LaunchFetching else Over)
  }

  function PollResumed(s: Runtime, t: nat, place: Place, answer: Answer, membership: Membership): Runtime
    requires place in {PollWaiting, PollFetching, PollChecking, PollApplied}
  {
    match place
    case PollWaiting => Parked(s, t, if answer.Elapsed? && !s.halted then PollFetching else Over)
    case PollFetching =>
      if !answer.Inventory? then PollFailed(s, t, answer)
      else if HasFinished(s) then NextPoll(s, t)
      else Parked(s, t, if answer.confirmsAbsence then PollChecking else PollApplied)
    case PollChecking =>
      if answer.CredentialsRefused? then PollFailed(s, t, answer)
      else if !answer.Inventory? || HasFinished(s) then Parked(s, t, PollApplied)
      else Parked(Did(s, RemovalCommits), t, PollApplied)
    case PollApplied =>
      if HasFinished(s) then NextPoll(s, t) else OpenShadow(PollRecorded(s, true), t, ByPoll, membership)
  }

  function RotationResumed(s: Runtime, t: nat, place: Place, answer: Answer, membership: Membership): Runtime
    requires place in {RotationFetching, RotationWaiting, RetryWaiting}
  {
    match place
    case RotationFetching =>
      if !answer.Credentials? then
        NextRotation(if !s.stopped && answer.CredentialsRefused? then Halt(s) else s, t)
      else if s.hasCredentials then NextRotation(s, t)
      else OpenShadow(s.(hasCredentials := true), t, ByRotation, membership)
    case RotationWaiting => Parked(s, t, if answer.Elapsed? && !s.halted then RotationFetching else Over)
    case RetryWaiting =>
      if answer.Elapsed? && !s.halted then AttemptShadow(s, t, ByRetry, membership)
      else Parked(s, t, Over).(retryingShadow := false)
  }

  /** One task runs from the await it was parked at to the next. */
  function Resumed(s: Runtime, t: nat, answer: Answer, membership: Membership): Runtime
    requires t < |s.tasks|
  {
    var place := s.tasks[t];
    match place
    case Over => s
    case OpeningShadow(opener) => ShadowOpened(s, t, opener, !answer.Opened?)
    case RotationFetching => RotationResumed(s, t, place, answer, membership)
    case RotationWaiting => RotationResumed(s, t, place, answer, membership)
    case RetryWaiting => RotationResumed(s, t, place, answer, membership)
    case PollWaiting => PollResumed(s, t, place, answer, membership)
    case PollFetching => PollResumed(s, t, place, answer, membership)
    case PollChecking => PollResumed(s, t, place, answer, membership)
    case PollApplied => PollResumed(s, t, place, answer, membership)
    case _ => LaunchResumed(s, t, place, answer)
  }

  predicate IsWait(place: Place) {
    place in {RelaunchWaiting, PollWaiting, RotationWaiting, RetryWaiting}
  }

  /** A wait is cut short by a stop alone; one that had already elapsed then still answers that it elapsed. */
  predicate Enabled(s: Runtime, e: Event) {
    e.Resumes? ==>
      && e.task < |s.tasks|
      && (IsWait(s.tasks[e.task]) ==> e.answer.Elapsed? || (e.answer.Aborted? && s.stopped))
  }

  function Step(s: Runtime, e: Event): Runtime
    requires Enabled(s, e)
  {
    match e
    case Resumes(t, answer, membership) => Resumed(s, t, answer, membership)
    case RecoveryReported => Pushes(s)
    case Stops => if s.stopped then s else CloseShadow(Pushes(Did(s.(stopped := true), StopRequested)))
  }

  // ---- Safety ----

  predicate IsEnd(effect: Effect) {
    effect.AuthenticationStopRecorded? || effect.StopRequested?
  }

  /** What may still happen after an end: closing, saying the transport is not ready, and the other end. */
  predicate IsQuiet(effect: Effect) {
    effect.ShadowClosed? || effect == TrustPushed(false) || IsEnd(effect)
  }

  ghost predicate QuietAfterEnd(effects: seq<Effect>) {
    forall i, j :: 0 <= i < j < |effects| && IsEnd(effects[i]) ==> IsQuiet(effects[j])
  }

  ghost predicate AtMostOnce(effects: seq<Effect>, effect: Effect) {
    forall i, j :: 0 <= i < j < |effects| && effects[i] == effect ==> effects[j] != effect
  }

  ghost predicate Sound(effects: seq<Effect>, halted: bool, stopped: bool) {
    && QuietAfterEnd(effects)
    && AtMostOnce(effects, AuthenticationStopRecorded)
    && AtMostOnce(effects, StopRequested)
    && (AuthenticationStopRecorded in effects <==> halted)
    && (StopRequested in effects <==> stopped)
  }

  ghost predicate Inv(s: Runtime) {
    Sound(s.effects, s.halted, s.stopped)
  }

  lemma QuietGrows(effects: seq<Effect>, effect: Effect)
    requires QuietAfterEnd(effects)
    requires IsQuiet(effect) || forall x :: x in effects ==> !IsEnd(x)
    ensures QuietAfterEnd(effects + [effect])
  {
    var grown := effects + [effect];
    forall i, j | 0 <= i < j < |grown| && IsEnd(grown[i])
      ensures IsQuiet(grown[j])
    {
      assert grown[i] == effects[i] && effects[i] in effects;
    }
  }

  lemma OnceGrows(effects: seq<Effect>, effect: Effect, once: Effect)
    requires AtMostOnce(effects, once) && (effect == once ==> once !in effects)
    ensures AtMostOnce(effects + [effect], once)
    ensures once in effects + [effect] <==> once in effects || effect == once
  {
    var grown := effects + [effect];
    forall i, j | 0 <= i < j < |grown| && grown[i] == once
      ensures grown[j] != once
    {
      assert grown[i] == effects[i] && effects[i] in effects;
    }
  }

  /** The two ends an effect can be, and the sequence they end. */
  lemma SoundGrows(effects: seq<Effect>, halted: bool, stopped: bool, effect: Effect)
    requires Sound(effects, halted, stopped)
    requires halted || stopped ==> IsQuiet(effect)
    requires IsEnd(effect) ==> effect !in effects
    ensures Sound(effects + [effect], halted || effect.AuthenticationStopRecorded?, stopped || effect.StopRequested?)
  {
    QuietGrows(effects, effect);
    OnceGrows(effects, effect, AuthenticationStopRecorded);
    OnceGrows(effects, effect, StopRequested);
  }

  /** One more effect is harmless when the runtime still runs, or the effect is quiet. */
  lemma DoingKeepsInv(s: Runtime, effect: Effect)
    requires Inv(s) && !IsEnd(effect) && (HasFinished(s) ==> IsQuiet(effect))
    ensures Inv(Did(s, effect))
  {
    SoundGrows(s.effects, s.halted, s.stopped, effect);
  }

  lemma EndingKeepsInv(s: Runtime, t: Runtime, end: Effect)
    requires Inv(s) && IsEnd(end) && end !in s.effects
    requires t.effects == s.effects + [end]
    requires end.AuthenticationStopRecorded? ==> t.halted && t.stopped == s.stopped
    requires end.StopRequested? ==> t.stopped && t.halted == s.halted
    ensures Inv(t)
  {
    SoundGrows(s.effects, s.halted, s.stopped, end);
  }

  lemma PushingKeepsInv(s: Runtime)
    requires Inv(s)
    ensures Inv(Pushes(s))
  {
    DoingKeepsInv(s, TrustPushed(Ready(s)));
  }

  lemma ClosingKeepsInv(s: Runtime)
    requires Inv(s)
    ensures Inv(CloseShadow(s))
  {
    DoingKeepsInv(s, ShadowClosed);
  }

  lemma HaltKeepsInv(s: Runtime)
    requires Inv(s)
    ensures Inv(Halt(s)) && Halt(s).halted && Halt(s).stopped == s.stopped
  {
    if !s.halted {
      var said := Did(s.(halted := true), AuthenticationStopRecorded);
      EndingKeepsInv(s, said, AuthenticationStopRecorded);
      PushingKeepsInv(said);
      ClosingKeepsInv(Pushes(said));
    }
  }

  lemma StopKeepsInv(s: Runtime)
    requires Inv(s)
    ensures Inv(Step(s, Stops))
  {
    if !s.stopped {
      var said := Did(s.(stopped := true), StopRequested);
      EndingKeepsInv(s, said, StopRequested);
      PushingKeepsInv(said);
      ClosingKeepsInv(Pushes(said));
    }
  }

  lemma RecordingKeepsInv(s: Runtime, succeeded: bool)
    requires Inv(s) && !HasFinished(s)
    ensures Inv(PollRecorded(s, succeeded))
  {
    var said := Did(s.(polling := succeeded), PollOutcome(succeeded));
    DoingKeepsInv(s, PollOutcome(succeeded));
    PushingKeepsInv(said);
  }

  lemma FailuresKeepInv(s: Runtime, t: nat, answer: Answer)
    requires Inv(s)
    ensures Inv(LaunchFailed(s, t, answer)) && Inv(PollFailed(s, t, answer))
  {
    HaltKeepsInv(s);
    if !HasFinished(s) {
      RecordingKeepsInv(s, false);
    }
  }

  lemma OpeningKeepsInv(s: Runtime, t: nat, opener: Opener, threw: bool)
    requires Inv(s)
    ensures Inv(ShadowOpened(s, t, opener, threw))
  {
    DoingKeepsInv(s, ShadowClosed);
    if !HasFinished(s) {
      DoingKeepsInv(s, ShadowInstalled);
    }
  }

  lemma LaunchingKeepsInv(s: Runtime, t: nat, place: Place, answer: Answer)
    requires Inv(s) && place in {Restoring, LaunchFetching, LaunchChecking, LaunchApplied, RelaunchWaiting}
    ensures Inv(LaunchResumed(s, t, place, answer))
  {
    FailuresKeepInv(s, t, answer);
    if !HasFinished(s) {
      DoingKeepsInv(s, RemovalCommits);
      RecordingKeepsInv(s, true);
    }
  }

  lemma PollingKeepsInv(s: Runtime, t: nat, place: Place, answer: Answer, membership: Membership)
    requires Inv(s) && place in {PollWaiting, PollFetching, PollChecking, PollApplied}
    ensures Inv(PollResumed(s, t, place, answer, membership))
  {
    FailuresKeepInv(s, t, answer);
    if !HasFinished(s) {
      DoingKeepsInv(s, RemovalCommits);
      RecordingKeepsInv(s, true);
    }
  }

  lemma RotatingKeepsInv(s: Runtime, t: nat, place: Place, answer: Answer, membership: Membership)
    requires Inv(s) && place in {RotationFetching, RotationWaiting, RetryWaiting}
    ensures Inv(RotationResumed(s, t, place, answer, membership))
  {
    HaltKeepsInv(s);
  }

  lemma ResumingKeepsInv(s: Runtime, t: nat, answer: Answer, membership: Membership)
    requires Inv(s) && t < |s.tasks|
    ensures Inv(Resumed(s, t, answer, membership))
  {
    var place := s.tasks[t];
    if place.OpeningShadow? {
      OpeningKeepsInv(s, t, place.opener, !answer.Opened?);
    } else if place in {RotationFetching, RotationWaiting, RetryWaiting} {
      RotatingKeepsInv(s, t, place, answer, membership);
    } else if place in {PollWaiting, PollFetching, PollChecking, PollApplied} {
      PollingKeepsInv(s, t, place, answer, membership);
    } else if !place.Over? {
      LaunchingKeepsInv(s, t, place, answer);
    }
  }

  lemma StepKeepsInv(s: Runtime, e: Event)
    requires Inv(s) && Enabled(s, e)
    ensures Inv(Step(s, e))
  {
    match e
    case Resumes(t, answer, membership) => ResumingKeepsInv(s, t, answer, membership);
    case RecoveryReported => PushingKeepsInv(s);
    case Stops => StopKeepsInv(s);
  }

  /** A runtime that was just started: one task, restoring the anchors before it launches. */
  const Started := Runtime(false, false, false, false, false, false, [Restoring], [])

  ghost predicate Possible(s: Runtime, es: seq<Event>)
    decreases |es|
  {
    es == [] || (Enabled(s, es[0]) && Possible(Step(s, es[0]), es[1..]))
  }

  ghost function Run(s: Runtime, es: seq<Event>): Runtime
    requires Possible(s, es)
    decreases |es|
  {
    if es == [] then s else Run(Step(s, es[0]), es[1..])
  }

  lemma {:induction false} RunKeepsInv(s: Runtime, es: seq<Event>)
    requires Inv(s) && Possible(s, es)
    ensures Inv(Run(s, es))
    ensures Later(s, Run(s, es))
    decreases |es|
  {
    if es != [] {
      StepKeepsInv(s, es[0]);
      EndsAreFinal(s, es[0]);
      RunKeepsInv(Step(s, es[0]), es[1..]);
    }
  }

  /** A step only adds effects, and neither end is ever taken back. */
  ghost predicate Later(s: Runtime, next: Runtime) {
    s.effects <= next.effects && (s.halted ==> next.halted) && (s.stopped ==> next.stopped)
  }

  lemma LaunchesGoForward(s: Runtime, t: nat, place: Place, answer: Answer)
    requires place in {Restoring, LaunchFetching, LaunchChecking, LaunchApplied, RelaunchWaiting}
    ensures Later(s, LaunchResumed(s, t, place, answer))
  {
    assert Later(s, LaunchFailed(s, t, answer));
  }

  lemma PollsGoForward(s: Runtime, t: nat, place: Place, answer: Answer, membership: Membership)
    requires place in {PollWaiting, PollFetching, PollChecking, PollApplied}
    ensures Later(s, PollResumed(s, t, place, answer, membership))
  {
    assert Later(s, PollFailed(s, t, answer));
    assert Later(s, OpenShadow(PollRecorded(s, true), t, ByPoll, membership));
  }

  lemma RotationsGoForward(s: Runtime, t: nat, place: Place, answer: Answer, membership: Membership)
    requires place in {RotationFetching, RotationWaiting, RetryWaiting}
    ensures Later(s, RotationResumed(s, t, place, answer, membership))
  {
    assert Later(s, Halt(s));
  }

  lemma EndsAreFinal(s: Runtime, e: Event)
    requires Enabled(s, e)
    ensures Later(s, Step(s, e))
  {
    if e.Resumes? {
      var place := s.tasks[e.task];
      if place.OpeningShadow? {
        assert Later(s, ShadowOpened(s, e.task, place.opener, !e.answer.Opened?));
      } else if place in {RotationFetching, RotationWaiting, RetryWaiting} {
        RotationsGoForward(s, e.task, place, e.answer, e.membership);
      } else if place in {PollWaiting, PollFetching, PollChecking, PollApplied} {
        PollsGoForward(s, e.task, place, e.answer, e.membership);
      } else if !place.Over? {
        LaunchesGoForward(s, e.task, place, e.answer);
      }
    }
  }

  /**
   * Once the runtime has halted or been stopped, wherever its loops are parked: no
   * poll outcome is recorded, no removal commits, no shadow client is installed, and
   * every trust pushed says the command transport is not ready. The authentication
   * stop is recorded at most once.
   */
  lemma NothingHappensAfterTheEnd(es: seq<Event>)
    requires Possible(Started, es)
    ensures var effects := Run(Started, es).effects;
            && (forall i, j :: 0 <= i < j < |effects| && IsEnd(effects[i]) ==>
                  && !effects[j].PollOutcome? && !effects[j].RemovalCommits? && !effects[j].ShadowInstalled?
                  && effects[j] != TrustPushed(true))
            && AtMostOnce(effects, AuthenticationStopRecorded)
            && (HasFinished(Run(Started, es)) <==> exists i :: 0 <= i < |effects| && IsEnd(effects[i]))
  {
    RunKeepsInv(Started, es);
    var effects := Run(Started, es).effects;
    if HasFinished(Run(Started, es)) {
      var end := if Run(Started, es).halted then AuthenticationStopRecorded else StopRequested;
      assert end in effects;
    }
  }

  // ---- The loops wind down ----

  /** How many more resumptions a parked task can need once the runtime has ended. */
  function Remaining(place: Place): nat {
    match place
    case Over => 0
    case PollWaiting => 1
    case RotationWaiting => 1
    case RetryWaiting => 1
    case Restoring => 1
    case LaunchApplied => 1
    case PollApplied => 2
    case OpeningShadow(_) => 2
    case RotationFetching => 2
    case LaunchFetching => 2
    case PollFetching => 2
    case LaunchChecking => 3
    case PollChecking => 3
    case RelaunchWaiting => 3
  }

  /** How task `t` left its await: closer to its end, every other task untouched, and any task it started already over. */
  ghost predicate WoundDown(s: Runtime, next: Runtime, t: nat, remaining: nat) {
    && t < |s.tasks| <= |next.tasks| <= |s.tasks| + 1
    && Remaining(next.tasks[t]) < remaining
    && (forall u :: 0 <= u < |s.tasks| && u != t ==> next.tasks[u] == s.tasks[u])
    && (|next.tasks| > |s.tasks| ==> next.tasks[|s.tasks|].Over?)
  }

  /** The runtime has ended: a halt lets no task wait again, and a stop none whose wait it cut short. */
  predicate Ending(s: Runtime, answer: Answer) {
    s.halted || (s.stopped && !answer.Elapsed?)
  }

  lemma EndedLaunchWindsDown(s: Runtime, t: nat, place: Place, answer: Answer)
    requires t < |s.tasks| && Ending(s, answer)
    requires place in {Restoring, LaunchFetching, LaunchChecking, LaunchApplied, RelaunchWaiting}
    ensures WoundDown(s, LaunchResumed(s, t, place, answer), t, Remaining(place))
  {
    assert LaunchFailed(s, t, answer) == Parked(s, t, Over);
  }

  lemma EndedPollWindsDown(s: Runtime, t: nat, place: Place, answer: Answer, membership: Membership)
    requires t < |s.tasks| && Ending(s, answer)
    requires place in {PollWaiting, PollFetching, PollChecking, PollApplied}
    ensures WoundDown(s, PollResumed(s, t, place, answer, membership), t, Remaining(place))
  {
    assert PollFailed(s, t, answer) == NextPoll(s, t);
  }

  lemma EndedRotationWindsDown(s: Runtime, t: nat, place: Place, answer: Answer, membership: Membership)
    requires t < |s.tasks| && Ending(s, answer)
    requires place in {RotationFetching, RotationWaiting, RetryWaiting}
    ensures WoundDown(s, RotationResumed(s, t, place, answer, membership), t, Remaining(place))
  {
  }

  lemma EndedOpeningWindsDown(s: Runtime, t: nat, opener: Opener, threw: bool)
    requires t < |s.tasks| && HasFinished(s)
    ensures WoundDown(s, ShadowOpened(s, t, opener, threw), t, Remaining(OpeningShadow(opener)))
  {
    if threw && !opener.ByRetry? {
      assert RetryStarted(s).tasks == s.tasks + [Over];
    }
  }

  /**
   * After a halt, or after a stop and once the waits it cut short no longer elapse, the
   * runtime winds down: each resumption brings its task strictly closer to its end, and
   * the only task it can start is a shadow retry that is over before it waits.
   */
  lemma EndedTasksWindDown(s: Runtime, t: nat, answer: Answer, membership: Membership)
    requires t < |s.tasks| && !s.tasks[t].Over? && Ending(s, answer)
    ensures WoundDown(s, Resumed(s, t, answer, membership), t, Remaining(s.tasks[t]))
  {
    var place := s.tasks[t];
    if place.OpeningShadow? {
      EndedOpeningWindsDown(s, t, place.opener, !answer.Opened?);
    } else if place in {RotationFetching, RotationWaiting, RetryWaiting} {
      EndedRotationWindsDown(s, t, place, answer, membership);
    } else if place in {PollWaiting, PollFetching, PollChecking, PollApplied} {
      EndedPollWindsDown(s, t, place, answer, membership);
    } else {
      EndedLaunchWindsDown(s, t, place, answer);
    }
  }

  /** The runtime, whose flags the concurrent loops share. */
  class AccountLoops {
    var polling: bool
    var halted: bool
    var stopped: bool
    var hasCredentials: bool
    var hasShadow: bool
    var retryingShadow: bool
    var tasks: seq<Place>
    var effects: seq<Effect>

    function Held(): Runtime
      reads this
    {
      Runtime(polling, halted, stopped, hasCredentials, hasShadow, retryingShadow, tasks, effects)
    }

    predicate Finished()
      reads this
    {
      stopped || halted
    }

    constructor ()
      ensures Held() == Started
    {
      polling, halted, stopped, hasCredentials, hasShadow, retryingShadow := false, false, false, false, false, false;
      tasks, effects := [Restoring], [];
    }

    method PushMonitoringTrust()
      modifies `effects
      ensures Held() == Pushes(old(Held()))
    {
      effects := effects + [TrustPushed(!stopped && !halted && polling)];
    }

    method CloseQuietly()
      modifies `effects
      ensures Held() == CloseShadow(old(Held()))
    {
      if hasShadow {
        effects := effects + [ShadowClosed];
      }
    }

    method HaltOnTerminalAuthFailure(answer: Answer) returns (terminal: bool)
      modifies `halted, `effects
      ensures terminal <==> answer.CredentialsRefused?
      ensures Held() == if terminal then Halt(old(Held())) else old(Held())
    {
      if !answer.CredentialsRefused? {
        return false;
      }
      if halted {
        return true;
      }
      halted := true;
      effects := effects + [AuthenticationStopRecorded];
      PushMonitoringTrust();
      CloseQuietly();
      return true;
    }

    method RecordPoll(succeeded: bool)
      modifies `polling, `effects
      ensures Held() == PollRecorded(old(Held()), succeeded)
    {
      polling := succeeded;
      effects := effects + [PollOutcome(succeeded)];
      PushMonitoringTrust();
    }

    method Park(t: nat, place: Place)
      requires t < |tasks|
      modifies `tasks
      ensures Held() == Parked(old(Held()), t, place)
    {
      tasks := tasks[t := place];
    }

    method StartBackgroundWork(t: nat)
      requires t < |tasks|
      modifies `tasks
      ensures Held() == BackgroundStarted(old(Held()), t)
    {
      Park(t, if halted then Over else PollWaiting);
      tasks := tasks + [RotationFetching];
    }

    method LaunchFailure(t: nat, answer: Answer)
      requires t < |tasks|
      modifies this
      ensures Held() == LaunchFailed(old(Held()), t, answer)
    {
      if Finished() {
        Park(t, Over);
        return;
      }
      var terminal := HaltOnTerminalAuthFailure(answer);
      if terminal {
        Park(t, Over);
      } else if answer.Throttled? {
        Park(t, RelaunchWaiting);
      } else {
        RecordPoll(false);
        StartBackgroundWork(t);
      }
    }

    method PollFailure(t: nat, answer: Answer)
      requires t < |tasks|
      modifies this
      ensures Held() == PollFailed(old(Held()), t, answer)
    {
      if !stopped {
        var terminal := HaltOnTerminalAuthFailure(answer);
        if !terminal && !Finished() {
          RecordPoll(false);
        }
      }
      Park(t, if halted then Over else PollWaiting);
    }

    method RunLaunch(t: nat, answer: Answer)
      requires t < |tasks| && tasks[t] in {Restoring, LaunchFetching, LaunchChecking, LaunchApplied, RelaunchWaiting}
      modifies this
      ensures Held() == LaunchResumed(old(Held()), t, old(tasks[t]), answer)
    {
      match tasks[t] {
        case Restoring =>
          Park(t, if Finished() then Over else LaunchFetching);
        case LaunchFetching =>
          if !answer.Inventory? {
            LaunchFailure(t, answer);
          } else if Finished() {
            Park(t, Over);
          } else {
            Park(t, if answer.confirmsAbsence then LaunchChecking else LaunchApplied);
          }
        case LaunchChecking =>
          if answer.CredentialsRefused? {
            LaunchFailure(t, answer);
            return;
          }
          if answer.Inventory? && !Finished() {
            effects := effects + [RemovalCommits];
          }
          Park(t, LaunchApplied);
        case LaunchApplied =>
          if Finished() {
            Park(t, Over);
            return;
          }
          RecordPoll(true);
          StartBackgroundWork(t);
        case RelaunchWaiting =>
          Park(t, if answer.Elapsed? then LaunchFetching else Over);
      }
    }

    method Continue(t: nat, opener: Opener)
      requires t < |tasks|
      modifies `tasks, `retryingShadow
      ensures Held() == After(old(Held()), t, opener)
    {
      match opener {
        case ByPoll => Park(t, if halted then Over else PollWaiting);
        case ByRotation => Park(t, if halted then Over else RotationWaiting);
        case ByRetry =>
          if !hasShadow && !stopped && !halted {
            Park(t, RetryWaiting);
          } else {
            Park(t, Over);
            retryingShadow := false;
          }
      }
    }

    method TryShadow(t: nat, opener: Opener, membership: Membership)
      requires t < |tasks|
      modifies `tasks, `retryingShadow
      ensures Held() == AttemptShadow(old(Held()), t, opener, membership)
    {
      if Finished() || !hasCredentials || membership.NoDevices? || (hasShadow && membership.Served?) {
        Continue(t, opener);
      } else {
        Park(t, OpeningShadow(opener));
      }
    }

    method OpenOnce(t: nat, opener: Opener, membership: Membership)
      requires t < |tasks|
      modifies `tasks, `retryingShadow
      ensures Held() == OpenShadow(old(Held()), t, opener, membership)
    {
      if retryingShadow {
        Continue(t, opener);
      } else {
        TryShadow(t, opener, membership);
      }
    }

    method StartRetryChain()
      modifies `tasks, `retryingShadow
      ensures Held() == RetryStarted(old(Held()))
    {
      retryingShadow := true;
      tasks := tasks + [RetryWaiting];
      Continue(|tasks| - 1, ByRetry);
    }

    method ShadowStarted(t: nat, answer: Answer)
      requires t < |tasks| && tasks[t].OpeningShadow?
      modifies this
      ensures Held() == ShadowOpened(old(Held()), t, old(tasks[t]).opener, !answer.Opened?)
    {
      var opener := tasks[t].opener;
      if answer.Opened? {
        if Finished() {
          effects := effects + [ShadowClosed];
        } else {
          hasShadow := true;
          effects := effects + [ShadowInstalled];
        }
      } else if !opener.ByRetry? {
        StartRetryChain();
      }
      Continue(t, opener);
    }

    method RunPoll(t: nat, answer: Answer, membership: Membership)
      requires t < |tasks| && tasks[t] in {PollWaiting, PollFetching, PollChecking, PollApplied}
      modifies this
      ensures Held() == PollResumed(old(Held()), t, old(tasks[t]), answer, membership)
    {
      match tasks[t] {
        case PollWaiting =>
          Park(t, if answer.Elapsed? && !halted then PollFetching else Over);
        case PollFetching =>
          if !answer.Inventory? {
            PollFailure(t, answer);
          } else if Finished() {
            Continue(t, ByPoll);
          } else {
            Park(t, if answer.confirmsAbsence then PollChecking else PollApplied);
          }
        case PollChecking =>
          if answer.CredentialsRefused? {
            PollFailure(t, answer);
            return;
          }
          if answer.Inventory? && !Finished() {
            effects := effects + [RemovalCommits];
          }
          Park(t, PollApplied);
        case PollApplied =>
          if Finished() {
            Continue(t, ByPoll);
            return;
          }
          RecordPoll(true);
          OpenOnce(t, ByPoll, membership);
      }
    }

    method RefreshCredentials(t: nat, answer: Answer, membership: Membership)
      requires t < |tasks|
      modifies this
      ensures Held() == RotationResumed(old(Held()), t, RotationFetching, answer, membership)
    {
      if !answer.Credentials? {
        if !stopped {
          var _ := HaltOnTerminalAuthFailure(answer);
        }
        Park(t, if halted then Over else RotationWaiting);
      } else if hasCredentials {
        Park(t, if halted then Over else RotationWaiting);
      } else {
        hasCredentials := true;
        OpenOnce(t, ByRotation, membership);
      }
    }

    method RetryShadow(t: nat, answer: Answer, membership: Membership)
      requires t < |tasks|
      modifies this
      ensures Held() == RotationResumed(old(Held()), t, RetryWaiting, answer, membership)
    {
      if answer.Elapsed? && !halted {
        TryShadow(t, ByRetry, membership);
      } else {
        Park(t, Over);
        retryingShadow := false;
      }
    }

    method Stop()
      modifies this
      ensures Held() == Step(old(Held()), Stops)
    {
      if stopped {
        return;
      }
      stopped := true;
      effects := effects + [StopRequested];
      PushMonitoringTrust();
      CloseQuietly();
    }
  }
}
