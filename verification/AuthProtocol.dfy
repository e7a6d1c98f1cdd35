/**
 * Single-flight authentication (`src/cloud/auth.ts`).
 *
 * Any number of callers share one cancellable grant. Code runs atomically from one
 * await to the next, so every step below is one such stretch; callers, their
 * cancellations, the network and the cache file interleave freely between steps.
 */
module AuthProtocol {
  import opened Wrappers

  const TOKEN_RENEWAL_MARGIN_MS := 3_600_000

  datatype Token = Token(idToken: string, expiresAtMs: int)

  predicate IsCurrent(token: Token, now: int) {
    token.expiresAtMs - TOKEN_RENEWAL_MARGIN_MS > now
  }

  /** How a grant attempt ended: with a token, with the vendor's refusal, transiently, or aborted. */
  datatype Outcome = Granted(token: Token) | Refused | Failed | Aborted

  /** Where a grant attempt is parked, up to the promise its callers hold having settled. */
  datatype Phase =
    | Requesting
    | Writing(granted: Token)
    | Deleting
    | Ended(outcome: Outcome)
    | Settled(result: Outcome)

  datatype Attempt = Attempt(phase: Phase, aborted: bool, waiters: int)

  datatype Rejection = OwnCancellation | ClientHalted | GrantRefused | GrantFailed | SomeoneElsesCancellation

  /** Where a caller is parked; a settled wait no longer listens to its signal. */
  datatype Place =
    | ReadingCache
    | CacheInHand
    | AwaitingAbandoned(abandoned: nat)
    | Reentering
    | Waiting(attempt: nat)
    | Returning(token: Token)
    | Done(answer: Token)
    | Rejected(why: Rejection)

  datatype Caller = Caller(place: Place, cancelled: bool)

  datatype CacheRead = Unread | Reading | Read(stored: Option<Token>)

  datatype Client = Client(
    attempts: seq<Attempt>,
    inFlight: Option<nat>,
    cacheRead: CacheRead,
    cached: Option<Token>,
    halted: bool,
    callers: map<nat, Caller>)

  /** What the vendor answers one request: a token, a refusal, or anything worth trying again. */
  datatype Answer = Accepts(token: Token) | Denies | Falters

  datatype Event =
    | Calls(caller: nat, cancelled: bool)
    | CacheAnswers(stored: Option<Token>)
    | CacheDelivered(caller: nat)
    | Proceeds(caller: nat, now: int)
    | AbandonmentDelivered(caller: nat)
    | Reenters(caller: nat)
    | GrantDelivered(caller: nat)
    | Returns(caller: nat)
    | Cancels(caller: nat)
    | Responds(attempt: nat, answer: Answer)
    | WorkFinishes(attempt: nat)
    | Settles(attempt: nat)

  predicate At(s: Client, c: nat, place: Place) {
    c in s.callers && s.callers[c].place == place
  }

  predicate Enabled(s: Client, e: Event) {
    match e
    case Calls(c, _) => c !in s.callers
    case CacheAnswers(_) => s.cacheRead.Reading?
    case CacheDelivered(c) => At(s, c, ReadingCache) && s.cacheRead.Read?
    case Proceeds(c, _) => At(s, c, CacheInHand) && s.cacheRead.Read?
    case AbandonmentDelivered(c) =>
      && c in s.callers && s.callers[c].place.AwaitingAbandoned?
      && s.callers[c].place.abandoned < |s.attempts|
      && s.attempts[s.callers[c].place.abandoned].phase.Settled?
    case Reenters(c) => At(s, c, Reentering)
    case GrantDelivered(c) =>
      && c in s.callers && s.callers[c].place.Waiting?
      && s.callers[c].place.attempt < |s.attempts|
      && s.attempts[s.callers[c].place.attempt].phase.Settled?
    case Returns(c) => c in s.callers && s.callers[c].place.Returning?
    case Cancels(c) => c in s.callers
    case Responds(i, _) => i < |s.attempts| && s.attempts[i].phase.Requesting?
    case WorkFinishes(i) => i < |s.attempts| && (s.attempts[i].phase.Writing? || s.attempts[i].phase.Deleting?)
    case Settles(i) => i < |s.attempts| && s.attempts[i].phase.Ended?
  }

  function Moved(s: Client, c: nat, place: Place): Client
    requires c in s.callers
  {
    s.(callers := s.callers[c := s.callers[c].(place := place)])
  }

  function WithPhase(s: Client, i: nat, phase: Phase): Client
    requires i < |s.attempts|
  {
    s.(attempts := s.attempts[i := s.attempts[i].(phase := phase)])
  }

  predicate InFlightAborted(s: Client) {
    s.inFlight.Some? && s.inFlight.value < |s.attempts| && s.attempts[s.inFlight.value].aborted
  }

  /** A caller reaches the shared grant: it waits out an abandoned attempt, or joins, or opens one. */
  function SharedGrant(s: Client, c: nat): Client
    requires c in s.callers
  {
    if s.callers[c].cancelled then
      Moved(s, c, Rejected(OwnCancellation))
    else if InFlightAborted(s) then
      Moved(s, c, AwaitingAbandoned(s.inFlight.value))
    else if s.halted then
      Moved(s, c, Rejected(ClientHalted))
    else if s.inFlight.Some? && s.inFlight.value < |s.attempts| then
      var i := s.inFlight.value;
      Moved(s.(attempts := s.attempts[i := s.attempts[i].(waiters := s.attempts[i].waiters + 1)]), c, Waiting(i))
    else
      Moved(s.(attempts := s.attempts + [Attempt(Requesting, false, 1)], inFlight := Some(|s.attempts|)), c, Waiting(|s.attempts|))
  }

  function PlaceOf(outcome: Outcome): Place {
    match outcome
    case Granted(token) => Returning(token)
    case Refused => Rejected(GrantRefused)
    case Failed => Rejected(GrantFailed)
    case Aborted => Rejected(SomeoneElsesCancellation)
  }

  /** A caller gives up its place on an attempt; only a cancellation that empties it aborts it. */
  function Left(attempt: Attempt, cancelling: bool): Attempt {
    attempt.(waiters := attempt.waiters - 1, aborted := attempt.aborted || (cancelling && attempt.waiters == 1))
  }

  function Step(s: Client, e: Event): Client
    requires Enabled(s, e)
  {
    match e
    case Calls(c, cancelled) =>
      var arrived := s.(callers := s.callers[c := Caller(ReadingCache, cancelled)]);
      if cancelled then Moved(arrived, c, Rejected(OwnCancellation))
      else if s.halted then Moved(arrived, c, Rejected(ClientHalted))
      else arrived.(cacheRead := if s.cacheRead.Unread? then Reading else s.cacheRead)
    case CacheAnswers(stored) => s.(cacheRead := Read(stored))
    case CacheDelivered(c) => Moved(s, c, CacheInHand)
    case Proceeds(c, now) =>
      if s.callers[c].cancelled then
        Moved(s, c, Rejected(OwnCancellation))
      else
        var filled := s.(cached := if s.cached.Some? then s.cached else s.cacheRead.stored);
        if filled.cached.Some? && IsCurrent(filled.cached.value, now) then Moved(filled, c, Returning(filled.cached.value))
        else SharedGrant(filled, c)
    case AbandonmentDelivered(c) => Moved(s, c, Reentering)
    case Reenters(c) => SharedGrant(s, c)
    case GrantDelivered(c) =>
      var i := s.callers[c].place.attempt;
      Moved(s.(attempts := s.attempts[i := Left(s.attempts[i], false)]), c, PlaceOf(s.attempts[i].phase.result))
    case Returns(c) =>
      if s.callers[c].cancelled then Moved(s, c, Rejected(OwnCancellation))
      else Moved(s.(cached := Some(s.callers[c].place.token)), c, Done(s.callers[c].place.token))
    case Cancels(c) =>
      var flagged := s.(callers := s.callers[c := s.callers[c].(cancelled := true)]);
      match s.callers[c].place {
        case ReadingCache => Moved(flagged, c, Rejected(OwnCancellation))
        case AwaitingAbandoned(_) => Moved(flagged, c, Rejected(OwnCancellation))
        case Waiting(i) =>
          if i < |s.attempts| then
            Moved(flagged.(attempts := s.attempts[i := Left(s.attempts[i], true)]), c, Rejected(OwnCancellation))
          else flagged
        case _ => flagged
      }
    case Responds(i, answer) =>
      if s.attempts[i].aborted then
        WithPhase(s, i, Ended(Aborted))
      else (match answer
        case Accepts(token) => WithPhase(s, i, Writing(token))
        case Denies => WithPhase(s, i, Deleting).(halted := true)
        case Falters => WithPhase(s, i, Ended(Failed)))
    case WorkFinishes(i) =>
      WithPhase(s, i,
        if s.attempts[i].phase.Deleting? then Ended(Refused)
        else if s.attempts[i].aborted then Ended(Aborted)
        else Ended(Granted(s.attempts[i].phase.granted)))
    case Settles(i) => WithPhase(s, i, Settled(s.attempts[i].phase.outcome)).(inFlight := None)
  }

  // ---- Safety ----

  ghost function WaitingOn(callers: map<nat, Caller>, i: nat): set<nat> {
    set c | c in callers && callers[c].place == Waiting(i)
  }

  ghost predicate OneInFlight(s: Client) {
    forall i :: 0 <= i < |s.attempts| ==> (!s.attempts[i].phase.Settled? <==> s.inFlight == Some(i))
  }

  ghost predicate WaitersCounted(s: Client) {
    && (forall i :: 0 <= i < |s.attempts| ==> s.attempts[i].waiters == |WaitingOn(s.callers, i)|)
    && (forall c :: c in s.callers && s.callers[c].place.Waiting? ==> s.callers[c].place.attempt < |s.attempts|)
  }

  ghost predicate AbortedMeansAbandoned(s: Client) {
    forall i :: 0 <= i < |s.attempts| ==> (s.attempts[i].aborted ==> s.attempts[i].waiters == 0)
  }

  predicate EndedAborted(phase: Phase) {
    phase == Ended(Aborted) || phase == Settled(Aborted)
  }

  ghost predicate OnlyAbortedEndAborted(s: Client) {
    forall i :: 0 <= i < |s.attempts| && EndedAborted(s.attempts[i].phase) ==> s.attempts[i].aborted
  }

  ghost predicate CallersKeepTheirOwn(s: Client) {
    forall c :: c in s.callers ==>
      && s.callers[c].place != Rejected(SomeoneElsesCancellation)
      && (s.callers[c].place == Rejected(OwnCancellation) ==> s.callers[c].cancelled)
  }

  ghost predicate Inv(s: Client) {
    && (s.inFlight.Some? ==> s.inFlight.value < |s.attempts|)
    && OneInFlight(s) && WaitersCounted(s) && AbortedMeansAbandoned(s) && OnlyAbortedEndAborted(s) && CallersKeepTheirOwn(s)
  }

  lemma WithoutOne(people: set<nat>, c: nat)
    ensures |people - {c}| == |people| - (if c in people then 1 else 0)
  {
    if c !in people {
      assert people - {c} == people;
    }
  }

  /** Moving one caller changes the waiting set of the attempt it leaves and of the one it joins, and no other. */
  lemma WaitingMoves(callers: map<nat, Caller>, c: nat, next: Caller, i: nat)
    ensures |WaitingOn(callers[c := next], i)| ==
              |WaitingOn(callers, i)|
              + (if next.place == Waiting(i) then 1 else 0)
              - (if c in callers && callers[c].place == Waiting(i) then 1 else 0)
  {
    WithoutOne(WaitingOn(callers, i), c);
    WithoutOne(WaitingOn(callers[c := next], i), c);
    assert WaitingOn(callers[c := next], i) - {c} == WaitingOn(callers, i) - {c};
  }

  lemma MoveKeepsCount(s: Client, c: nat, next: Caller, t: Client)
    requires WaitersCounted(s) && t.callers == s.callers[c := next] && |t.attempts| >= |s.attempts|
    requires next.place.Waiting? ==> next.place.attempt < |t.attempts|
    requires forall i :: 0 <= i < |t.attempts| ==>
               t.attempts[i].waiters == (if i < |s.attempts| then s.attempts[i].waiters else 0)
                                        + (if next.place == Waiting(i) then 1 else 0)
                                        - (if c in s.callers && s.callers[c].place == Waiting(i) then 1 else 0)
    ensures WaitersCounted(t)
  {
    forall i | 0 <= i < |t.attempts|
      ensures t.attempts[i].waiters == |WaitingOn(t.callers, i)|
    {
      WaitingMoves(s.callers, c, next, i);
      if i >= |s.attempts| {
        assert WaitingOn(s.callers, i) == {};
      }
    }
  }

  /** A caller moves between places that hold no attempt. */
  lemma FreeMoveKeepsInv(s: Client, c: nat, next: Caller, t: Client)
    requires Inv(s) && t.callers == s.callers[c := next] && t.attempts == s.attempts && t.inFlight == s.inFlight
    requires c in s.callers ==> !s.callers[c].place.Waiting?
    requires !next.place.Waiting? && next.place != Rejected(SomeoneElsesCancellation)
    requires next.place == Rejected(OwnCancellation) ==> next.cancelled
    ensures Inv(t)
  {
    MoveKeepsCount(s, c, next, t);
  }

  lemma JoiningKeepsInv(s: Client, c: nat)
    requires Inv(s) && c in s.callers && !s.callers[c].place.Waiting?
    requires s.inFlight.Some? && !InFlightAborted(s)
    ensures var i := s.inFlight.value;
            Inv(Moved(s.(attempts := s.attempts[i := s.attempts[i].(waiters := s.attempts[i].waiters + 1)]), c, Waiting(i)))
  {
    var i := s.inFlight.value;
    var t := Moved(s.(attempts := s.attempts[i := s.attempts[i].(waiters := s.attempts[i].waiters + 1)]), c, Waiting(i));
    MoveKeepsCount(s, c, t.callers[c], t);
  }

  lemma OpeningKeepsInv(s: Client, c: nat)
    requires Inv(s) && c in s.callers && !s.callers[c].place.Waiting? && s.inFlight.None?
    ensures Inv(Moved(s.(attempts := s.attempts + [Attempt(Requesting, false, 1)], inFlight := Some(|s.attempts|)), c, Waiting(|s.attempts|)))
  {
    var t := Moved(s.(attempts := s.attempts + [Attempt(Requesting, false, 1)], inFlight := Some(|s.attempts|)), c, Waiting(|s.attempts|));
    MoveKeepsCount(s, c, t.callers[c], t);
  }

  lemma SharedGrantKeepsInv(s: Client, c: nat)
    requires Inv(s) && c in s.callers && !s.callers[c].place.Waiting?
    ensures Inv(SharedGrant(s, c))
  {
    if s.callers[c].cancelled || InFlightAborted(s) || s.halted {
      FreeMoveKeepsInv(s, c, SharedGrant(s, c).callers[c], SharedGrant(s, c));
    } else if s.inFlight.Some? {
      JoiningKeepsInv(s, c);
    } else {
      OpeningKeepsInv(s, c);
    }
  }

  /** A caller gives up the place it waited at. */
  lemma GivingUpKeepsInv(s: Client, c: nat, next: Caller, cancelling: bool, t: Client)
    requires Inv(s) && c in s.callers && s.callers[c].place.Waiting?
    requires var i := s.callers[c].place.attempt;
             t.attempts == s.attempts[i := Left(s.attempts[i], cancelling)] && t.inFlight == s.inFlight
    requires t.callers == s.callers[c := next] && !next.place.Waiting?
    requires next.place != Rejected(SomeoneElsesCancellation)
    requires next.place == Rejected(OwnCancellation) ==> next.cancelled
    ensures Inv(t)
  {
    assert c in WaitingOn(s.callers, s.callers[c].place.attempt);
    MoveKeepsCount(s, c, next, t);
  }

  lemma LeavingKeepsInv(s: Client, e: Event)
    requires Inv(s) && Enabled(s, e) && (e.GrantDelivered? || e.Cancels?)
    ensures Inv(Step(s, e))
  {
    var c, t := e.caller, Step(s, e);
    if s.callers[c].place.Waiting? {
      assert c in WaitingOn(s.callers, s.callers[c].place.attempt);
      assert !s.attempts[s.callers[c].place.attempt].aborted;
      GivingUpKeepsInv(s, c, t.callers[c], e.Cancels?, t);
    } else {
      FreeMoveKeepsInv(s, c, t.callers[c], t);
    }
  }

  lemma ProceedingKeepsInv(s: Client, e: Event)
    requires Inv(s) && Enabled(s, e) && e.Proceeds?
    ensures Inv(Step(s, e))
  {
    var c, t := e.caller, Step(s, e);
    var filled := s.(cached := if s.cached.Some? then s.cached else s.cacheRead.stored);
    assert Inv(filled);
    if s.callers[c].cancelled || (filled.cached.Some? && IsCurrent(filled.cached.value, e.now)) {
      FreeMoveKeepsInv(s, c, t.callers[c], t);
    } else {
      SharedGrantKeepsInv(filled, c);
    }
  }

  lemma CallerMoveKeepsInv(s: Client, e: Event)
    requires Inv(s) && Enabled(s, e)
    requires e.Calls? || e.CacheDelivered? || e.AbandonmentDelivered? || e.Returns?
    ensures Inv(Step(s, e))
  {
    var c, t := e.caller, Step(s, e);
    assert t.callers == s.callers[c := t.callers[c]];
    FreeMoveKeepsInv(s, c, t.callers[c], t);
  }

  lemma AttemptMoveKeepsInv(s: Client, i: nat, phase: Phase, t: Client)
    requires Inv(s) && i < |s.attempts| && !s.attempts[i].phase.Settled?
    requires t.callers == s.callers && t.attempts == s.attempts[i := s.attempts[i].(phase := phase)]
    requires t.inFlight == if phase.Settled? then None else s.inFlight
    requires EndedAborted(phase) ==> s.attempts[i].aborted
    ensures Inv(t)
  {
  }

  lemma StepKeepsInv(s: Client, e: Event)
    requires Inv(s) && Enabled(s, e)
    ensures Inv(Step(s, e))
  {
    match e
    case CacheAnswers(_) =>
    case Responds(i, _) => AttemptMoveKeepsInv(s, i, Step(s, e).attempts[i].phase, Step(s, e));
    case WorkFinishes(i) => AttemptMoveKeepsInv(s, i, Step(s, e).attempts[i].phase, Step(s, e));
    case Settles(i) => AttemptMoveKeepsInv(s, i, Step(s, e).attempts[i].phase, Step(s, e));
    case GrantDelivered(_) => LeavingKeepsInv(s, e);
    case Cancels(_) => LeavingKeepsInv(s, e);
    case Proceeds(_, _) => ProceedingKeepsInv(s, e);
    case Reenters(c) => SharedGrantKeepsInv(s, c);
    case _ => CallerMoveKeepsInv(s, e);
  }

  const Created := Client([], None, Unread, None, false, map[])

  ghost predicate Possible(s: Client, es: seq<Event>)
    decreases |es|
  {
    es == [] || (Enabled(s, es[0]) && Possible(Step(s, es[0]), es[1..]))
  }

  ghost function Run(s: Client, es: seq<Event>): Client
    requires Possible(s, es)
    decreases |es|
  {
    if es == [] then s else Run(Step(s, es[0]), es[1..])
  }

  lemma {:induction false} RunKeepsInv(s: Client, es: seq<Event>)
    requires Inv(s) && Possible(s, es)
    ensures Inv(Run(s, es))
    decreases |es|
  {
    if es != [] {
      StepKeepsInv(s, es[0]);
      RunKeepsInv(Step(s, es[0]), es[1..]);
    }
  }

  /**
   * In every interleaving: at most one grant attempt is unsettled; `waiters` is the
   * number of callers waiting on it; an attempt somebody waits on is not aborted;
   * and no caller is ever rejected with a cancellation that is not its own.
   */
  lemma SingleFlight(es: seq<Event>)
    requires Possible(Created, es)
    ensures var s := Run(Created, es);
            && (forall i, j :: 0 <= i < j < |s.attempts| ==> s.attempts[i].phase.Settled? || s.attempts[j].phase.Settled?)
            && (forall i :: 0 <= i < |s.attempts| ==> s.attempts[i].waiters == |WaitingOn(s.callers, i)|)
            && (forall c :: c in s.callers && s.callers[c].place.Waiting? ==>
                  s.callers[c].place.attempt < |s.attempts| && !s.attempts[s.callers[c].place.attempt].aborted)
            && (forall c :: c in s.callers ==> s.callers[c].place != Rejected(SomeoneElsesCancellation))
            && (forall c :: c in s.callers && s.callers[c].place == Rejected(OwnCancellation) ==> s.callers[c].cancelled)
  {
    RunKeepsInv(Created, es);
    var s := Run(Created, es);
    forall c | c in s.callers && s.callers[c].place.Waiting?
      ensures !s.attempts[s.callers[c].place.attempt].aborted
    {
      assert c in WaitingOn(s.callers, s.callers[c].place.attempt);
    }
  }

  /** An attempt is aborted exactly by the cancellation of its last waiter. */
  lemma AbortNeedsTheLastWaiter(s: Client, e: Event, i: nat)
    requires Inv(s) && Enabled(s, e) && i < |s.attempts|
    ensures Step(s, e).attempts[i].aborted <==>
              s.attempts[i].aborted || (e.Cancels? && WaitingOn(s.callers, i) == {e.caller})
  {
    match e
    case Cancels(c) =>
      OnlyOne(WaitingOn(s.callers, i), c);
      assert s.callers[c].place.Waiting? ==> c in WaitingOn(s.callers, s.callers[c].place.attempt);
    case Proceeds(c, _) => JoiningAbortsNothing(s.(cached := if s.cached.Some? then s.cached else s.cacheRead.stored), c, i);
    case Reenters(c) => JoiningAbortsNothing(s, c, i);
    case _ =>
  }

  lemma OnlyOne(people: set<nat>, c: nat)
    ensures people == {c} <==> c in people && |people| == 1
  {
    WithoutOne(people, c);
    assert c in people ==> people == (people - {c}) + {c};
  }

  lemma JoiningAbortsNothing(s: Client, c: nat, i: nat)
    requires c in s.callers && i < |s.attempts|
    ensures |SharedGrant(s, c).attempts| >= |s.attempts| && SharedGrant(s, c).attempts[i].aborted == s.attempts[i].aborted
  {
  }

  lemma NothingStartsNow(s: Client, e: Event)
    requires Inv(s) && Enabled(s, e)
    ensures var t := Step(s, e);
            && |t.attempts| >= |s.attempts|
            && (s.halted ==> t.halted && |t.attempts| == |s.attempts|)
            && (forall i :: 0 <= i < |s.attempts| && s.attempts[i].aborted ==> t.attempts[i].aborted)
  {
    match e
    case Proceeds(c, _) => GrantsAreOrderly(s.(cached := if s.cached.Some? then s.cached else s.cacheRead.stored), c);
    case Reenters(c) => GrantsAreOrderly(s, c);
    case _ =>
  }

  lemma GrantsAreOrderly(s: Client, c: nat)
    requires c in s.callers && (s.inFlight.Some? ==> s.inFlight.value < |s.attempts|)
    ensures var t := SharedGrant(s, c);
            && |t.attempts| >= |s.attempts| && t.halted == s.halted
            && (s.halted ==> |t.attempts| == |s.attempts|)
            && (forall i :: 0 <= i < |s.attempts| ==> t.attempts[i].aborted == s.attempts[i].aborted)
  {
  }

  /** An aborted attempt gains no waiter, and a recorded refusal is final: no further grant starts. */
  lemma {:induction false} NothingStartsAfter(s: Client, es: seq<Event>)
    requires Inv(s) && Possible(s, es)
    ensures var t := Run(s, es);
            && |t.attempts| >= |s.attempts|
            && (s.halted ==> t.halted && |t.attempts| == |s.attempts|)
            && (forall i :: 0 <= i < |s.attempts| && s.attempts[i].aborted ==> t.attempts[i].aborted && WaitingOn(t.callers, i) == {})
    decreases |es|
  {
    if es != [] {
      StepKeepsInv(s, es[0]);
      NothingStartsNow(s, es[0]);
      NothingStartsAfter(Step(s, es[0]), es[1..]);
    }
    forall i | 0 <= i < |s.attempts| && s.attempts[i].aborted
      ensures WaitingOn(s.callers, i) == {}
    {
      assert s.attempts[i].waiters == 0;
    }
  }

  // ---- What the vendor's answer does ----

  /** A run up to some point, and on from there. */
  lemma {:induction false} RunSplits(s: Client, es: seq<Event>, k: nat)
    requires Possible(s, es) && k <= |es|
    ensures Possible(s, es[..k]) && Possible(Run(s, es[..k]), es[k..]) && Run(Run(s, es[..k]), es[k..]) == Run(s, es)
    decreases |es|
  {
    if k == 0 {
      assert es[..0] == [] && es[0..] == es;
    } else {
      RunSplits(Step(s, es[0]), es[1..], k - 1);
      assert es[..k][0] == es[0] && es[..k][1..] == es[1..][..k - 1] && es[k..] == es[1..][k - 1..];
    }
  }

  /** The vendor refuses a grant that nobody has abandoned by then. */
  predicate IsRefusal(s: Client, e: Event) {
    e.Responds? && e.answer.Denies? && e.attempt < |s.attempts| && !s.attempts[e.attempt].aborted
  }

  ghost predicate RefusedAt(s: Client, es: seq<Event>, k: nat)
    requires Possible(s, es) && k < |es|
  {
    RunSplits(s, es, k);
    IsRefusal(Run(s, es[..k]), es[k])
  }

  lemma StepHaltsExactlyWhen(s: Client, e: Event)
    requires Enabled(s, e)
    ensures Step(s, e).halted <==> s.halted || IsRefusal(s, e)
  {
  }

  /** The client is halted exactly when the vendor refused a grant that nobody had abandoned. */
  lemma {:induction false} HaltedExactlyWhenRefused(s: Client, es: seq<Event>)
    requires Possible(s, es)
    ensures Run(s, es).halted <==> s.halted || exists k :: 0 <= k < |es| && RefusedAt(s, es, k)
    decreases |es|
  {
    if es != [] {
      var t, rest := Step(s, es[0]), es[1..];
      StepHaltsExactlyWhen(s, es[0]);
      HaltedExactlyWhenRefused(t, rest);
      assert es[..0] == [];
      assert IsRefusal(s, es[0]) <==> RefusedAt(s, es, 0);
      forall k | 0 <= k < |rest| ensures RefusedAt(t, rest, k) <==> RefusedAt(s, es, k + 1) {
        RunSplits(t, rest, k);
        RunSplits(s, es, k + 1);
        assert es[..k + 1][0] == es[0] && es[..k + 1][1..] == rest[..k];
      }
      if k :| 0 <= k < |es| && RefusedAt(s, es, k) {
        assert k > 0 ==> RefusedAt(t, rest, k - 1);
      }
    }
  }

  /**
   * A refusal is final from the very step that brings it: the client is halted for
   * the rest of the run, whatever comes, and opens no grant after it.
   */
  lemma NoGrantAfterARefusal(es: seq<Event>, k: nat)
    requires Possible(Created, es) && k < |es| && RefusedAt(Created, es, k)
    ensures Run(Created, es).halted
    ensures Possible(Created, es[..k + 1]) && |Run(Created, es).attempts| == |Run(Created, es[..k + 1]).attempts|
  {
    HaltedExactlyWhenRefused(Created, es);
    RunSplits(Created, es, k + 1);
    RunKeepsInv(Created, es[..k + 1]);
    RunSplits(Created, es[..k + 1], k);
    assert es[..k + 1][..k] == es[..k] && es[..k + 1][k] == es[k];
    assert RefusedAt(Created, es[..k + 1], k);
    HaltedExactlyWhenRefused(Created, es[..k + 1]);
    NothingStartsAfter(Run(Created, es[..k + 1]), es[k + 1..]);
  }

  /** How far an attempt can be after the vendor's answer, while nobody has abandoned it. */
  predicate Follows(phase: Phase, answer: Answer) {
    match answer
    case Accepts(token) => phase in {Writing(token), Ended(Granted(token)), Settled(Granted(token))}
    case Denies => phase in {Deleting, Ended(Refused), Settled(Refused)}
    case Falters => phase in {Ended(Failed), Settled(Failed)}
  }

  /** The vendor answered this attempt, and nothing else has decided how far it is. */
  ghost predicate Heard(past: seq<Event>, i: nat, phase: Phase) {
    exists j :: 0 <= j < |past| && past[j].Responds? && past[j].attempt == i && Follows(phase, past[j].answer)
  }

  ghost predicate AllHeard(s: Client, past: seq<Event>) {
    forall i :: 0 <= i < |s.attempts| && !s.attempts[i].aborted && !s.attempts[i].phase.Requesting? ==> Heard(past, i, s.attempts[i].phase)
  }

  lemma StaysHeard(past: seq<Event>, e: Event, i: nat, phase: Phase, next: Phase)
    requires Heard(past, i, phase) && forall answer :: Follows(phase, answer) ==> Follows(next, answer)
    ensures Heard(past + [e], i, next)
  {
    var j :| 0 <= j < |past| && past[j].Responds? && past[j].attempt == i && Follows(phase, past[j].answer);
    assert (past + [e])[j] == past[j];
  }

  lemma AnAttemptMovesOn(s: Client, e: Event, i: nat)
    requires Inv(s) && Enabled(s, e) && i < |Step(s, e).attempts|
    ensures i >= |s.attempts| ==> Step(s, e).attempts[i].phase.Requesting?
    ensures i < |s.attempts| && !Step(s, e).attempts[i].aborted ==>
              var phase, next := s.attempts[i].phase, Step(s, e).attempts[i].phase;
              && !s.attempts[i].aborted
              && (phase.Requesting? ==> next.Requesting? || (e.Responds? && e.attempt == i && Follows(next, e.answer)))
              && (!phase.Requesting? ==> forall answer :: Follows(phase, answer) ==> Follows(next, answer))
  {
    if i < |s.attempts| {
      AbortNeedsTheLastWaiter(s, e, i);
    }
    match e
    case Proceeds(c, _) => GrantsMoveNoPhase(s.(cached := if s.cached.Some? then s.cached else s.cacheRead.stored), c);
    case Reenters(c) => GrantsMoveNoPhase(s, c);
    case _ =>
  }

  lemma GrantsMoveNoPhase(s: Client, c: nat)
    requires c in s.callers
    ensures var t := SharedGrant(s, c);
            && |t.attempts| >= |s.attempts|
            && (forall i :: 0 <= i < |s.attempts| ==> t.attempts[i].phase == s.attempts[i].phase && t.attempts[i].aborted == s.attempts[i].aborted)
            && (forall i :: |s.attempts| <= i < |t.attempts| ==> t.attempts[i].phase.Requesting?)
  {
  }

  lemma StepKeepsHeard(s: Client, past: seq<Event>, e: Event)
    requires Inv(s) && AllHeard(s, past) && Enabled(s, e)
    ensures AllHeard(Step(s, e), past + [e])
  {
    var t := Step(s, e);
    forall i | 0 <= i < |t.attempts| && !t.attempts[i].aborted && !t.attempts[i].phase.Requesting?
      ensures Heard(past + [e], i, t.attempts[i].phase)
    {
      AnAttemptMovesOn(s, e, i);
      if s.attempts[i].phase.Requesting? {
        assert (past + [e])[|past|] == e;
      } else {
        StaysHeard(past, e, i, s.attempts[i].phase, t.attempts[i].phase);
      }
    }
  }

  lemma {:induction false} RunKeepsHeard(s: Client, past: seq<Event>, es: seq<Event>)
    requires Inv(s) && AllHeard(s, past) && Possible(s, es)
    ensures AllHeard(Run(s, es), past + es)
    decreases |es|
  {
    if es == [] {
      assert past + es == past;
    } else {
      StepKeepsInv(s, es[0]);
      StepKeepsHeard(s, past, es[0]);
      RunKeepsHeard(Step(s, es[0]), past + [es[0]], es[1..]);
      assert past + [es[0]] + es[1..] == past + es;
    }
  }

  /**
   * Every waiter is answered what the vendor answered to its attempt: a token is
   * handed on, a refusal rejects it as refused, anything else as failed.
   */
  lemma WaitersHearTheVendor(es: seq<Event>, c: nat) returns (j: nat)
    requires Possible(Created, es) && Enabled(Run(Created, es), GrantDelivered(c))
    ensures var s := Run(Created, es);
            && j < |es| && es[j].Responds? && es[j].attempt == s.callers[c].place.attempt
            && Step(s, GrantDelivered(c)).callers[c].place ==
                 match es[j].answer
                 case Accepts(token) => Returning(token)
                 case Denies => Rejected(GrantRefused)
                 case Falters => Rejected(GrantFailed)
  {
    RunKeepsInv(Created, es);
    RunKeepsHeard(Created, [], es);
    assert [] + es == es;
    var s := Run(Created, es);
    var i := s.callers[c].place.attempt;
    assert c in WaitingOn(s.callers, i);
    j :| 0 <= j < |es| && es[j].Responds? && es[j].attempt == i && Follows(s.attempts[i].phase, es[j].answer);
  }

  /** So a refusal rejects everybody who waits on the refused grant, and nobody with anything else. */
  lemma RefusalsReachEveryWaiter(es: seq<Event>, k: nat, c: nat)
    requires Possible(Created, es) && k < |es| && RefusedAt(Created, es, k) && Enabled(Run(Created, es), GrantDelivered(c))
    ensures Run(Created, es).callers[c].place.attempt == es[k].attempt ==>
              Step(Run(Created, es), GrantDelivered(c)).callers[c].place == Rejected(GrantRefused)
  {
    RunSplits(Created, es, k);
    RunKeepsInv(Created, es[..k]);
    RefusedStaysRefused(Run(Created, es[..k]), es[k..], es[k].attempt);
  }

  lemma {:induction false} RefusedStaysRefused(s: Client, es: seq<Event>, i: nat)
    requires Inv(s) && Possible(s, es) && i < |s.attempts|
    requires Follows(s.attempts[i].phase, Denies) || (es != [] && IsRefusal(s, es[0]) && es[0].attempt == i)
    ensures i < |Run(s, es).attempts| && Follows(Run(s, es).attempts[i].phase, Denies)
    decreases |es|
  {
    if es != [] {
      StepKeepsInv(s, es[0]);
      RefusalMovesOn(s, es[0], i);
      RefusedStaysRefused(Step(s, es[0]), es[1..], i);
    }
  }

  lemma RefusalMovesOn(s: Client, e: Event, i: nat)
    requires Inv(s) && Enabled(s, e) && i < |s.attempts|
    requires Follows(s.attempts[i].phase, Denies) || (IsRefusal(s, e) && e.attempt == i)
    ensures i < |Step(s, e).attempts| && Follows(Step(s, e).attempts[i].phase, Denies)
  {
    match e
    case Proceeds(c, _) => GrantsMoveNoPhase(s.(cached := if s.cached.Some? then s.cached else s.cacheRead.stored), c);
    case Reenters(c) => GrantsMoveNoPhase(s, c);
    case _ =>
  }

  /** A caller that meets an abandoned attempt waits it out; nobody is let in beside it. */
  lemma NewGrantsNeedASettledPredecessor(s: Client, e: Event)
    requires Inv(s) && Enabled(s, e)
    ensures |Step(s, e).attempts| <= |s.attempts| + 1
    ensures |Step(s, e).attempts| == |s.attempts| + 1 ==>
              && !s.halted
              && (forall i :: 0 <= i < |s.attempts| ==> s.attempts[i].phase.Settled?)
              && (e.Proceeds? || e.Reenters?) && !s.callers[e.caller].cancelled
  {
  }

  /** A client that starts without a halt has one exactly when the vendor refused it something. */
  lemma FreshClientsHaltExactlyWhenRefused(es: seq<Event>)
    requires Possible(Created, es)
    ensures Run(Created, es).halted <==> exists k :: 0 <= k < |es| && RefusedAt(Created, es, k)
  {
    HaltedExactlyWhenRefused(Created, es);
  }

  /** The work of an aborted attempt ends without a token, however far its cache write had come. */
  lemma {:induction false} AbortedWorkGrantsNothing(s: Client, es: seq<Event>, i: nat)
    requires Inv(s) && Possible(s, es) && i < |s.attempts| && s.attempts[i].aborted
    requires s.attempts[i].phase.Requesting? || s.attempts[i].phase.Writing?
    ensures i < |Run(s, es).attempts| && Run(s, es).attempts[i].phase in {Requesting, s.attempts[i].phase, Ended(Aborted), Settled(Aborted)}
    decreases |es|
  {
    if es != [] {
      StepKeepsInv(s, es[0]);
      AbortedWorkMovesOn(s, es[0], i);
      if Step(s, es[0]).attempts[i].phase == s.attempts[i].phase {
        AbortedWorkGrantsNothing(Step(s, es[0]), es[1..], i);
      } else {
        AbortedStaysAborted(Step(s, es[0]), es[1..], i);
      }
    }
  }

  lemma AbortedWorkMovesOn(s: Client, e: Event, i: nat)
    requires Inv(s) && Enabled(s, e) && i < |s.attempts| && s.attempts[i].aborted
    ensures var t := Step(s, e);
            && i < |t.attempts| && t.attempts[i].aborted
            && (s.attempts[i].phase.Requesting? || s.attempts[i].phase.Writing? ==> t.attempts[i].phase in {s.attempts[i].phase, Ended(Aborted)})
            && (EndedAborted(s.attempts[i].phase) ==> EndedAborted(t.attempts[i].phase))
  {
    AbortNeedsTheLastWaiter(s, e, i);
    match e
    case Proceeds(c, _) => GrantsMoveNoPhase(s.(cached := if s.cached.Some? then s.cached else s.cacheRead.stored), c);
    case Reenters(c) => GrantsMoveNoPhase(s, c);
    case _ =>
  }

  lemma {:induction false} AbortedStaysAborted(s: Client, es: seq<Event>, i: nat)
    requires Inv(s) && Possible(s, es) && i < |s.attempts| && s.attempts[i].aborted && EndedAborted(s.attempts[i].phase)
    ensures i < |Run(s, es).attempts| && EndedAborted(Run(s, es).attempts[i].phase)
    decreases |es|
  {
    if es != [] {
      StepKeepsInv(s, es[0]);
      AbortedWorkMovesOn(s, es[0], i);
      AbortedStaysAborted(Step(s, es[0]), es[1..], i);
    }
  }

  // ---- What becomes of a caller ----

  predicate IsFinished(place: Place) {
    place.Done? || place.Rejected?
  }

  /** A wait that listens to its caller's signal. */
  predicate Listens(place: Place) {
    place.ReadingCache? || place.AwaitingAbandoned? || place.Waiting?
  }

  /** A cancelled caller listens to nothing; a caller past the cache found it read, and one that waits something to wait for. */
  ghost predicate CallersAreParked(s: Client) {
    forall c :: c in s.callers ==>
      var caller := s.callers[c];
      && (caller.cancelled ==> !Listens(caller.place))
      && (caller.place.ReadingCache? ==> !s.cacheRead.Unread?)
      && (caller.place.CacheInHand? ==> s.cacheRead.Read?)
      && (caller.place.AwaitingAbandoned? ==> caller.place.abandoned < |s.attempts|)
  }

  /** Where one step can take a caller that was there before. */
  lemma CallersMoveOn(s: Client, e: Event, c: nat)
    requires Inv(s) && CallersAreParked(s) && Enabled(s, e) && c in s.callers
    ensures var before, t := s.callers[c], Step(s, e);
            && c in t.callers
            && (before.cancelled ==> t.callers[c].cancelled && t.callers[c].place in {before.place, Rejected(OwnCancellation)})
            && (IsFinished(before.place) ==> t.callers[c].place == before.place)
            && (e == Cancels(c) ==> t.callers[c] == Caller(if Listens(before.place) then Rejected(OwnCancellation) else before.place, true))
            && (t.callers[c].place != before.place && !e.Cancels? ==>
                  && (before.place.ReadingCache? ==> s.cacheRead.Read?)
                  && (before.place.AwaitingAbandoned? ==> s.attempts[before.place.abandoned].phase.Settled?)
                  && (before.place.Waiting? ==> s.attempts[before.place.attempt].phase.Settled?))
  {
    match e
    case Proceeds(d, _) => OthersStayParked(s.(cached := if s.cached.Some? then s.cached else s.cacheRead.stored), d, c);
    case Reenters(d) => OthersStayParked(s, d, c);
    case Cancels(d) => CancellingLeavesOthers(s, d);
    case _ => OthersAreLeft(s, e);
  }

  lemma CancellingLeavesOthers(s: Client, d: nat)
    requires Inv(s) && Enabled(s, Cancels(d))
    ensures Step(s, Cancels(d)).callers ==
              s.callers[d := Caller(if Listens(s.callers[d].place) then Rejected(OwnCancellation) else s.callers[d].place, true)]
  {
  }

  lemma OthersAreLeft(s: Client, e: Event)
    requires Enabled(s, e) && !e.Proceeds? && !e.Reenters? && !e.Cancels?
    ensures Step(s, e).callers ==
              if e.Calls? || e.CacheDelivered? || e.AbandonmentDelivered? || e.GrantDelivered? || e.Returns? then
                s.callers[e.caller := Step(s, e).callers[e.caller]]
              else s.callers
  {
  }

  lemma OthersStayParked(s: Client, d: nat, c: nat)
    requires d in s.callers && c in s.callers
    ensures c != d ==> c in SharedGrant(s, d).callers && SharedGrant(s, d).callers[c] == s.callers[c]
    ensures d in SharedGrant(s, d).callers && SharedGrant(s, d).callers[d].cancelled == s.callers[d].cancelled
    ensures s.callers[d].cancelled ==> SharedGrant(s, d).callers[d].place == Rejected(OwnCancellation)
    ensures SharedGrant(s, d).cacheRead == s.cacheRead && SharedGrant(s, d).cached == s.cached
    ensures SharedGrant(s, d).callers.Keys == s.callers.Keys && |SharedGrant(s, d).attempts| >= |s.attempts|
  {
  }

  /** A caller arrives at the cache read unless it is cancelled or the client is halted, and the first to arrive starts the read. */
  lemma ArrivalsReadTheCacheOnce(s: Client, c: nat, cancelled: bool)
    requires Enabled(s, Calls(c, cancelled))
    ensures var t := Step(s, Calls(c, cancelled));
            && t.callers == s.callers[c := Caller(if cancelled then Rejected(OwnCancellation)
                                                  else if s.halted then Rejected(ClientHalted) else ReadingCache, cancelled)]
            && t.(callers := s.callers, cacheRead := s.cacheRead) == s
            && (t.cacheRead != s.cacheRead <==> !cancelled && !s.halted && s.cacheRead.Unread?)
            && (s.cacheRead.Read? ==> t.cacheRead == s.cacheRead)
            && (t.callers[c].place.ReadingCache? ==> !t.cacheRead.Unread?)
  {
  }

  lemma GrantsParkCallers(s: Client, c: nat)
    requires c in s.callers && CallersAreParked(s) && (s.inFlight.Some? ==> s.inFlight.value < |s.attempts|)
    ensures CallersAreParked(SharedGrant(s, c))
  {
  }

  lemma CancellingParksCallers(s: Client, c: nat)
    requires Inv(s) && CallersAreParked(s) && Enabled(s, Cancels(c))
    ensures CallersAreParked(Step(s, Cancels(c)))
  {
  }

  lemma ArrivalsParkCallers(s: Client, c: nat, cancelled: bool)
    requires CallersAreParked(s) && Enabled(s, Calls(c, cancelled))
    ensures CallersAreParked(Step(s, Calls(c, cancelled)))
  {
    ArrivalsReadTheCacheOnce(s, c, cancelled);
  }

  lemma StepKeepsCallersParked(s: Client, e: Event)
    requires Inv(s) && CallersAreParked(s) && Enabled(s, e)
    ensures CallersAreParked(Step(s, e))
  {
    match e
    case Calls(c, cancelled) => ArrivalsParkCallers(s, c, cancelled);
    case Proceeds(c, _) => GrantsParkCallers(s.(cached := if s.cached.Some? then s.cached else s.cacheRead.stored), c);
    case Reenters(c) => GrantsParkCallers(s, c);
    case Cancels(c) => CancellingParksCallers(s, c);
    case _ =>
  }

  lemma {:induction false} RunKeepsCallersParked(s: Client, es: seq<Event>)
    requires Inv(s) && CallersAreParked(s) && Possible(s, es)
    ensures Inv(Run(s, es)) && CallersAreParked(Run(s, es))
    decreases |es|
  {
    if es != [] {
      StepKeepsInv(s, es[0]);
      StepKeepsCallersParked(s, es[0]);
      RunKeepsCallersParked(Step(s, es[0]), es[1..]);
    }
  }

  /** Once its signal has fired a caller is answered with its own cancellation or not at all; a finished one stays as it was. */
  lemma {:induction false} CancelledCallersGetNothing(s: Client, es: seq<Event>, c: nat)
    requires Inv(s) && CallersAreParked(s) && Possible(s, es) && c in s.callers && (s.callers[c].cancelled || IsFinished(s.callers[c].place))
    ensures c in Run(s, es).callers
    ensures Run(s, es).callers[c].place in {s.callers[c].place, Rejected(OwnCancellation)}
    ensures IsFinished(s.callers[c].place) ==> Run(s, es).callers[c].place == s.callers[c].place
    decreases |es|
  {
    if es != [] {
      StepKeepsInv(s, es[0]);
      StepKeepsCallersParked(s, es[0]);
      CallersMoveOn(s, es[0], c);
      CancelledCallersGetNothing(Step(s, es[0]), es[1..], c);
    }
  }

  /**
   * Nobody is ever stuck: in every reachable state a caller that has not been answered
   * can go on itself, or what it waits for can, and any caller can be cancelled.
   */
  lemma NobodyIsStuck(es: seq<Event>, c: nat, now: int) returns (e: Event)
    requires Possible(Created, es) && c in Run(Created, es).callers && !IsFinished(Run(Created, es).callers[c].place)
    ensures var s := Run(Created, es);
            && Enabled(s, Cancels(c))
            && Enabled(s, e)
            && (|| (e.CacheAnswers? && s.callers[c].place.ReadingCache?)
                || (e.Responds? && s.callers[c].place in {Waiting(e.attempt), AwaitingAbandoned(e.attempt)})
                || (e.WorkFinishes? && s.callers[c].place in {Waiting(e.attempt), AwaitingAbandoned(e.attempt)})
                || (e.Settles? && s.callers[c].place in {Waiting(e.attempt), AwaitingAbandoned(e.attempt)})
                || e in {CacheDelivered(c), Proceeds(c, now), AbandonmentDelivered(c), Reenters(c), GrantDelivered(c), Returns(c)})
  {
    RunKeepsCallersParked(Created, es);
    var s := Run(Created, es);
    match s.callers[c].place
    case ReadingCache => e := if s.cacheRead.Read? then CacheDelivered(c) else CacheAnswers(None);
    case CacheInHand => e := Proceeds(c, now);
    case AwaitingAbandoned(i) =>
      e := if s.attempts[i].phase.Settled? then AbandonmentDelivered(c) else NextOf(s.attempts[i].phase, i);
    case Reentering => e := Reenters(c);
    case Waiting(i) => e := if s.attempts[i].phase.Settled? then GrantDelivered(c) else NextOf(s.attempts[i].phase, i);
    case Returning(_) => e := Returns(c);
  }

  /** The step an unsettled attempt is waiting for. */
  function NextOf(phase: Phase, i: nat): Event {
    match phase
    case Requesting => Responds(i, Falters)
    case Ended(_) => Settles(i)
    case _ => WorkFinishes(i)
  }

  /** A live caller at the shared grant joins the attempt that is out, waits it out if it was abandoned, or opens one. */
  lemma ReachingTheGrant(s: Client, c: nat)
    requires Inv(s) && c in s.callers && !s.callers[c].cancelled
    ensures var t, place := SharedGrant(s, c), SharedGrant(s, c).callers[c].place;
            && (forall i :: 0 <= i < |s.attempts| && !s.attempts[i].phase.Settled? && s.attempts[i].aborted ==> place == AwaitingAbandoned(i))
            && (forall i :: 0 <= i < |s.attempts| && !s.attempts[i].phase.Settled? && !s.attempts[i].aborted && !s.halted ==>
                  place == Waiting(i) && t.attempts[i].waiters == s.attempts[i].waiters + 1 && |t.attempts| == |s.attempts|)
            && ((forall i :: 0 <= i < |s.attempts| ==> s.attempts[i].phase.Settled?) && !s.halted ==>
                  place == Waiting(|s.attempts|) && |t.attempts| == |s.attempts| + 1 && t.inFlight == Some(|s.attempts|))
            && (s.halted && (forall i :: 0 <= i < |s.attempts| && !s.attempts[i].phase.Settled? ==> !s.attempts[i].aborted) ==>
                  place == Rejected(ClientHalted))
  {
  }

  /** A delivered cache read lets its caller look at the token, and a settled abandoned attempt lets its caller ask again; neither moves anything else. */
  lemma DeliveriesGoOn(s: Client, c: nat)
    ensures Enabled(s, CacheDelivered(c)) ==> Step(s, CacheDelivered(c)) == s.(callers := s.callers[c := s.callers[c].(place := CacheInHand)])
    ensures Enabled(s, AbandonmentDelivered(c)) ==>
              Step(s, AbandonmentDelivered(c)) == s.(callers := s.callers[c := s.callers[c].(place := Reentering)])
    ensures Enabled(s, Reenters(c)) ==> Step(s, Reenters(c)) == SharedGrant(s, c)
  {
  }

  // ---- Which token a caller gets ----

  /** The vendor granted this token or the cache file held it. */
  ghost predicate Provided(past: seq<Event>, token: Token) {
    exists j :: 0 <= j < |past| && ((past[j].Responds? && past[j].answer == Accepts(token)) || past[j] == CacheAnswers(Some(token)))
  }

  ghost predicate PlaceIsProvided(past: seq<Event>, place: Place) {
    && (place.Returning? ==> Provided(past, place.token))
    && (place.Done? ==> Provided(past, place.answer))
  }

  ghost predicate PhaseIsProvided(past: seq<Event>, phase: Phase) {
    && (phase.Writing? ==> Provided(past, phase.granted))
    && (phase.Ended? && phase.outcome.Granted? ==> Provided(past, phase.outcome.token))
    && (phase.Settled? && phase.result.Granted? ==> Provided(past, phase.result.token))
  }

  ghost predicate AllProvided(s: Client, past: seq<Event>) {
    && (s.cached.Some? ==> Provided(past, s.cached.value))
    && (s.cacheRead.Read? && s.cacheRead.stored.Some? ==> Provided(past, s.cacheRead.stored.value))
    && (forall c :: c in s.callers ==> PlaceIsProvided(past, s.callers[c].place))
    && (forall i :: 0 <= i < |s.attempts| ==> PhaseIsProvided(past, s.attempts[i].phase))
  }

  lemma MorePastProvidesMore(s: Client, past: seq<Event>, e: Event)
    requires AllProvided(s, past)
    ensures AllProvided(s, past + [e])
  {
    forall token | Provided(past, token) ensures Provided(past + [e], token) {
      var j :| 0 <= j < |past| && ((past[j].Responds? && past[j].answer == Accepts(token)) || past[j] == CacheAnswers(Some(token)));
      assert (past + [e])[j] == past[j];
    }
  }

  lemma GrantsKeepProvided(s: Client, past: seq<Event>, c: nat)
    requires AllProvided(s, past) && c in s.callers
    ensures AllProvided(SharedGrant(s, c), past)
  {
  }

  lemma ProceedingKeepsProvided(s: Client, past: seq<Event>, c: nat, now: int)
    requires AllProvided(s, past) && Enabled(s, Proceeds(c, now))
    ensures AllProvided(Step(s, Proceeds(c, now)), past)
  {
    var filled := s.(cached := if s.cached.Some? then s.cached else s.cacheRead.stored);
    assert AllProvided(filled, past);
    GrantsKeepProvided(filled, past, c);
  }

  lemma DeliveryKeepsProvided(s: Client, past: seq<Event>, c: nat)
    requires AllProvided(s, past) && Enabled(s, GrantDelivered(c))
    ensures AllProvided(Step(s, GrantDelivered(c)), past)
  {
  }

  lemma CancellingKeepsProvided(s: Client, past: seq<Event>, c: nat)
    requires AllProvided(s, past) && Enabled(s, Cancels(c))
    ensures AllProvided(Step(s, Cancels(c)), past)
  {
  }

  lemma AttemptsKeepProvided(s: Client, past: seq<Event>, e: Event)
    requires AllProvided(s, past) && Enabled(s, e) && (e.Responds? || e.WorkFinishes? || e.Settles?)
    requires e.Responds? && e.answer.Accepts? ==> Provided(past, e.answer.token)
    ensures AllProvided(Step(s, e), past)
  {
    assert PhaseIsProvided(past, s.attempts[e.attempt].phase);
  }

  lemma CallersKeepProvided(s: Client, past: seq<Event>, e: Event)
    requires AllProvided(s, past) && Enabled(s, e)
    requires e.Calls? || e.CacheAnswers? || e.CacheDelivered? || e.AbandonmentDelivered? || e.Returns?
    requires e.CacheAnswers? && e.stored.Some? ==> Provided(past, e.stored.value)
    ensures AllProvided(Step(s, e), past)
  {
  }

  lemma StepKeepsProvided(s: Client, past: seq<Event>, e: Event)
    requires AllProvided(s, past) && Enabled(s, e)
    requires e.Responds? && e.answer.Accepts? ==> Provided(past, e.answer.token)
    requires e.CacheAnswers? && e.stored.Some? ==> Provided(past, e.stored.value)
    ensures AllProvided(Step(s, e), past)
  {
    match e
    case Proceeds(c, now) => ProceedingKeepsProvided(s, past, c, now);
    case Reenters(c) => GrantsKeepProvided(s, past, c);
    case GrantDelivered(c) => DeliveryKeepsProvided(s, past, c);
    case Cancels(c) => CancellingKeepsProvided(s, past, c);
    case Responds(_, _) => AttemptsKeepProvided(s, past, e);
    case WorkFinishes(_) => AttemptsKeepProvided(s, past, e);
    case Settles(_) => AttemptsKeepProvided(s, past, e);
    case _ => CallersKeepProvided(s, past, e);
  }

  lemma {:induction false} RunKeepsProvided(s: Client, past: seq<Event>, es: seq<Event>)
    requires AllProvided(s, past) && Possible(s, es)
    ensures AllProvided(Run(s, es), past + es)
    decreases |es|
  {
    if es == [] {
      assert past + es == past;
    } else {
      MorePastProvidesMore(s, past, es[0]);
      assert (past + [es[0]])[|past|] == es[0];
      StepKeepsProvided(s, past + [es[0]], es[0]);
      RunKeepsProvided(Step(s, es[0]), past + [es[0]], es[1..]);
      assert past + [es[0]] + es[1..] == past + es;
    }
  }

  /** Every token a caller is answered with was granted by the vendor, or held by the cache file. */
  lemma AnswersAreProvided(es: seq<Event>, c: nat)
    requires Possible(Created, es) && c in Run(Created, es).callers && Run(Created, es).callers[c].place.Done?
    ensures Provided(es, Run(Created, es).callers[c].place.answer)
  {
    RunKeepsProvided(Created, [], es);
    assert [] + es == es;
    assert PlaceIsProvided(es, Run(Created, es).callers[c].place);
  }

  lemma CachedMovesOnReturns(s: Client, e: Event)
    requires Enabled(s, e) && !e.Returns?
    ensures s.cached.Some? ==> Step(s, e).cached == s.cached
    ensures e.CacheAnswers? ==> Step(s, e).cacheRead == Read(e.stored)
  {
  }

  lemma {:induction false} CachedStays(s: Client, es: seq<Event>)
    requires Possible(s, es) && s.cached.Some? && forall k :: 0 <= k < |es| ==> !es[k].Returns?
    ensures Run(s, es).cached == s.cached
    decreases |es|
  {
    if es != [] {
      CachedMovesOnReturns(s, es[0]);
      CachedStays(Step(s, es[0]), es[1..]);
    }
  }

  /**
   * A token once returned serves every later caller, up to an hour before it expires,
   * without a request of its own; from then on they go to the shared grant.
   */
  lemma ReturnedTokensAreReused(s: Client, c: nat, es: seq<Event>, d: nat, now: int)
    requires Enabled(s, Returns(c)) && !s.callers[c].cancelled
    requires Possible(Step(s, Returns(c)), es) && forall k :: 0 <= k < |es| ==> !es[k].Returns?
    requires Enabled(Run(Step(s, Returns(c)), es), Proceeds(d, now)) && !Run(Step(s, Returns(c)), es).callers[d].cancelled
    ensures var token, t := s.callers[c].place.token, Run(Step(s, Returns(c)), es);
            && Step(s, Returns(c)).callers[c].place == Done(token)
            && (token.expiresAtMs - now > 60 * 60 * 1000 ==>
                  Step(t, Proceeds(d, now)) == t.(callers := t.callers[d := Caller(Returning(token), false)]))
            && (token.expiresAtMs - now <= 60 * 60 * 1000 ==> Step(t, Proceeds(d, now)) == SharedGrant(t, d))
  {
    CachedStays(Step(s, Returns(c)), es);
  }

  /** The first live caller past the cache read takes what the file held, on the same terms. */
  lemma StoredTokensAreUsed(s: Client, d: nat, now: int)
    requires Enabled(s, Proceeds(d, now)) && !s.callers[d].cancelled && s.cached.None?
    ensures var t, stored := s.(cached := s.cacheRead.stored), s.cacheRead.stored;
            if stored.Some? && stored.value.expiresAtMs - now > 60 * 60 * 1000 then
              Step(s, Proceeds(d, now)) == t.(callers := t.callers[d := Caller(Returning(stored.value), false)])
            else
              Step(s, Proceeds(d, now)) == SharedGrant(t, d)
  {
  }

  /** The client, whose closure variables each stretch of code between awaits updates in place. */
  class AuthClient {
    var attempts: seq<Attempt>
    var inFlight: Option<nat>
    var cacheRead: CacheRead
    var cached: Option<Token>
    var halted: bool
    // Each caller's parked continuation.
    var callers: map<nat, Caller>

    function Held(): Client
      reads this
    {
      Client(attempts, inFlight, cacheRead, cached, halted, callers)
    }

    constructor ()
      ensures Held() == Created
    {
      attempts, inFlight, cacheRead, cached, halted, callers := [], None, Unread, None, false, map[];
    }

    method IdToken(c: nat, cancelled: bool)
      requires Enabled(Held(), Calls(c, cancelled))
      modifies this
      ensures Held() == Step(old(Held()), Calls(c, cancelled))
    {
      if cancelled {
        callers := callers[c := Caller(Rejected(OwnCancellation), true)];
        return;
      }
      if halted {
        callers := callers[c := Caller(Rejected(ClientHalted), false)];
        return;
      }
      if cacheRead.Unread? {
        cacheRead := Reading;
      }
      callers := callers[c := Caller(ReadingCache, false)];
    }

    method ReadCache(stored: Option<Token>)
      requires Enabled(Held(), CacheAnswers(stored))
      modifies this
      ensures Held() == Step(old(Held()), CacheAnswers(stored))
    {
      cacheRead := Read(stored);
    }

    method Park(c: nat, place: Place)
      requires c in callers
      modifies `callers
      ensures callers == old(callers)[c := old(callers)[c].(place := place)]
    {
      callers := callers[c := callers[c].(place := place)];
    }

    /** The rest of `currentToken` once the cache read is in hand. */
    method CurrentToken(c: nat, now: int)
      requires Enabled(Held(), Proceeds(c, now))
      modifies this
      ensures Held() == Step(old(Held()), Proceeds(c, now))
    {
      if callers[c].cancelled {
        Park(c, Rejected(OwnCancellation));
        return;
      }
      if cached.None? {
        cached := cacheRead.stored;
      }
      if cached.Some? && IsCurrent(cached.value, now) {
        Park(c, Returning(cached.value));
        return;
      }
      JoinGrant(c);
    }

    method JoinGrant(c: nat)
      requires c in callers
      modifies this
      ensures Held() == SharedGrant(old(Held()), c)
    {
      if callers[c].cancelled {
        Park(c, Rejected(OwnCancellation));
        return;
      }
      if inFlight.Some? && inFlight.value < |attempts| && attempts[inFlight.value].aborted {
        Park(c, AwaitingAbandoned(inFlight.value));
        return;
      }
      if halted {
        Park(c, Rejected(ClientHalted));
        return;
      }
      if inFlight.None? || inFlight.value >= |attempts| {
        inFlight := Some(|attempts|);
        attempts := attempts + [Attempt(Requesting, false, 0)];
      }
      var i := inFlight.value;
      attempts := attempts[i := attempts[i].(waiters := attempts[i].waiters + 1)];
      assert old(Held()).inFlight != inFlight ==> attempts == old(attempts) + [Attempt(Requesting, false, 1)];
      Park(c, Waiting(i));
    }

    /** A wait settled: its caller stops listening and, on a grant, gives up its place. */
    method Deliver(c: nat) returns (ghost e: Event)
      requires Enabled(Held(), CacheDelivered(c)) || Enabled(Held(), AbandonmentDelivered(c)) || Enabled(Held(), GrantDelivered(c))
      modifies this
      ensures e in {CacheDelivered(c), AbandonmentDelivered(c), GrantDelivered(c)}
      ensures old(Enabled(Held(), e)) && Held() == Step(old(Held()), e)
    {
      match callers[c].place {
        case ReadingCache =>
          e := CacheDelivered(c);
          Park(c, CacheInHand);
        case AwaitingAbandoned(_) =>
          e := AbandonmentDelivered(c);
          Park(c, Reentering);
        case Waiting(i) =>
          e := GrantDelivered(c);
          var result := attempts[i].phase.result;
          attempts := attempts[i := attempts[i].(waiters := attempts[i].waiters - 1)];
          Park(c, PlaceOf(result));
      }
    }

    method Reenter(c: nat)
      requires Enabled(Held(), Reenters(c))
      modifies this
      ensures Held() == Step(old(Held()), Reenters(c))
    {
      JoinGrant(c);
    }

    method Return(c: nat)
      requires Enabled(Held(), Returns(c))
      modifies this
      ensures Held() == Step(old(Held()), Returns(c))
    {
      var token := callers[c].place.token;
      if callers[c].cancelled {
        Park(c, Rejected(OwnCancellation));
        return;
      }
      cached := Some(token);
      Park(c, Done(token));
    }

    /** A caller's signal fires: a listening wait ends at once, and the last waiter aborts the attempt. */
    method Cancel(c: nat)
      requires Enabled(Held(), Cancels(c))
      modifies this
      ensures Held() == Step(old(Held()), Cancels(c))
    {
      var place := callers[c].place;
      callers := callers[c := callers[c].(cancelled := true)];
      match place {
        case ReadingCache => Park(c, Rejected(OwnCancellation));
        case AwaitingAbandoned(_) => Park(c, Rejected(OwnCancellation));
        case Waiting(i) =>
          if i < |attempts| {
            attempts := attempts[i := attempts[i].(waiters := attempts[i].waiters - 1)];
            if attempts[i].waiters == 0 {
              attempts := attempts[i := attempts[i].(aborted := true)];
            }
            Park(c, Rejected(OwnCancellation));
          }
        case _ =>
      }
    }

    method RequestAnswered(i: nat, answer: Answer)
      requires Enabled(Held(), Responds(i, answer))
      modifies this
      ensures Held() == Step(old(Held()), Responds(i, answer))
    {
      var phase;
      if attempts[i].aborted {
        phase := Ended(Aborted);
      } else {
        match answer {
          case Accepts(token) => phase := Writing(token);
          case Denies =>
            halted := true;
            phase := Deleting;
          case Falters => phase := Ended(Failed);
        }
      }
      attempts := attempts[i := attempts[i].(phase := phase)];
    }

    method FileWorkFinished(i: nat)
      requires Enabled(Held(), WorkFinishes(i))
      modifies this
      ensures Held() == Step(old(Held()), WorkFinishes(i))
    {
      var outcome := Aborted;
      if attempts[i].phase.Deleting? {
        outcome := Refused;
      } else if !attempts[i].aborted {
        outcome := Granted(attempts[i].phase.granted);
      }
      attempts := attempts[i := attempts[i].(phase := Ended(outcome))];
    }

    /** The `finally` that frees the slot runs before any waiter hears the outcome. */
    method Settle(i: nat)
      requires Enabled(Held(), Settles(i))
      modifies this
      ensures Held() == Step(old(Held()), Settles(i))
    {
      inFlight := None;
      attempts := attempts[i := attempts[i].(phase := Settled(attempts[i].phase.outcome))];
    }
  }
}
