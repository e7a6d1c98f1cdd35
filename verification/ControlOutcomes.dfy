/**
 * What a user sees of the control switches (`src/accessories/controls.ts`): for every
 * event, what each switch shows after it, what a press or an outcome is answered with,
 * and when each of these may happen.
 */
module ControlOutcomes {
  import opened Wrappers
  import opened Controls

  /** The device reports the capability and nothing puts its scope in doubt. */
  predicate IsReported(facts: Facts, c: Capability) {
    c in facts.decoded && c !in facts.withheld
  }

  /** What switch `d` shows after an event that finds it showing `shown`. */
  function ShownAfter(s: System, e: Event, d: Capability, shown: On): On
    requires Enabled(s, e)
  {
    match e
    case Press(c, value) =>
      if d != c then shown else On(if c in s.handler && s.handler[c].Unhandled? then value else shown.value, Success)
    case Lands =>
      if d != s.landing.capability then shown
      else if s.landing.Refusal? then On(shown.value, s.landing.status) else On(s.landing.value, Success)
    case Outcome(_, _) => shown
    case Updates(facts) =>
      if IsReported(facts, d) && !(d in s.requested && !facts.decoded[d]) then On(facts.decoded[d], Success) else shown
    case TrustChanges(facts) =>
      if IsReported(facts, d) && d !in s.requested then On(facts.decoded[d], Success) else shown
    case Fires(h) =>
      var refreshed := IsReported(s.facts, d) && d !in s.requested && !s.facts.credentialsRejected;
      (match s.timers[h].job
       case Window(c, previousValue) =>
         if d == c then On(if IsReported(s.facts, c) then s.facts.decoded[c] else previousValue, Success)
         else if refreshed then On(s.facts.decoded[d], Success) else shown
       case ClearingPush(c, republishes) =>
         if d == c then On(if republishes && IsReported(s.facts, c) then s.facts.decoded[c] else shown.value, Success)
         else if republishes && refreshed then On(s.facts.decoded[d], Success) else shown)
    case TimePasses(_) => shown
  }

  lemma AnsweringShowsNothing(s: System, c: Capability, value: bool)
    requires c in s.on
    ensures Answered(s, c, value).on == s.on
  {
  }

  lemma PressesShow(s: System, e: Event, d: Capability)
    requires Inv(s) && Enabled(s, e) && e.Press?
    ensures d in s.on && d in Step(s, e).on && Step(s, e).on[d] == ShownAfter(s, e, d, s.on[d])
  {
    var started := s.(on := s.on[e.capability := s.on[e.capability].(status := Success)]);
    AnsweringShowsNothing(started, e.capability, e.value);
    match s.handler[e.capability]
    case Binder => assert Step(s, e) == Answered(started, e.capability, e.value);
    case _ =>
  }

  lemma LandingsShow(s: System, e: Event, d: Capability)
    requires Inv(s) && Enabled(s, e) && e.Lands?
    ensures d in s.on && d in Step(s, e).on && Step(s, e).on[d] == ShownAfter(s, e, d, s.on[d])
  {
  }

  lemma NoRequestAppears(s: System, facts: Facts, d: Capability)
    requires Enabled(s, Updates(facts)) && d !in s.requested
    ensures d !in Step(s, Updates(facts)).requested
  {
  }

  /** What a report leaves pending decides whether the row shows it. */
  lemma UpdatesShowWhatIsNotPending(s: System, facts: Facts, d: Capability)
    requires Inv(s) && Enabled(s, Updates(facts))
    ensures var t := Step(s, Updates(facts));
            d in s.on && d in t.on && t.on[d] == if IsReported(facts, d) && d !in t.requested then On(facts.decoded[d], Success) else s.on[d]
  {
    var told := s.(facts := facts, handler := map c | c in s.handler :: Binder);
    var settled := Reconciled(Reconciled(told, SelfTest), AlarmMute);
    assert Step(s, Updates(facts)) == Published(settled);
    ReconcilingShowsNothing(told, SelfTest);
    ReconcilingShowsNothing(Reconciled(told, SelfTest), AlarmMute);
  }

  lemma ReconcilingShowsNothing(s: System, c: Capability)
    ensures Reconciled(s, c).on == s.on && Reconciled(s, c).facts == s.facts
  {
  }

  lemma UpdatesShow(s: System, e: Event, d: Capability)
    requires Inv(s) && Enabled(s, e) && ValuesAccepted(s) && e.Updates?
    ensures d in s.on && d in Step(s, e).on && Step(s, e).on[d] == ShownAfter(s, e, d, s.on[d])
  {
    UpdatesShowWhatIsNotPending(s, e.facts, d);
    if d in s.requested {
      ReportsResolve(s, e.facts, d);
    } else {
      NoRequestAppears(s, e.facts, d);
    }
  }

  lemma TrustChangesShow(s: System, e: Event, d: Capability)
    requires Inv(s) && Enabled(s, e) && e.TrustChanges?
    ensures d in s.on && d in Step(s, e).on && Step(s, e).on[d] == ShownAfter(s, e, d, s.on[d])
  {
  }

  lemma WindowsShow(s: System, e: Event, d: Capability)
    requires Inv(s) && Enabled(s, e) && e.Fires? && s.timers[e.handle].job.Window?
    ensures d in s.on && d in Step(s, e).on && Step(s, e).on[d] == ShownAfter(s, e, d, s.on[d])
  {
  }

  lemma ClearingPushesShow(s: System, e: Event, d: Capability)
    requires Inv(s) && Enabled(s, e) && e.Fires? && s.timers[e.handle].job.ClearingPush?
    ensures d in s.on && d in Step(s, e).on && Step(s, e).on[d] == ShownAfter(s, e, d, s.on[d])
  {
  }

  /** Every event leaves each switch showing exactly this: reported values where they are due, and otherwise what was there. */
  lemma SwitchesShowExactly(s: System, e: Event, d: Capability)
    requires Inv(s) && ValuesAccepted(s) && Enabled(s, e)
    ensures d in s.on && d in Step(s, e).on && Step(s, e).on[d] == ShownAfter(s, e, d, s.on[d])
  {
    match e
    case Press(_, _) => PressesShow(s, e, d);
    case Lands => LandingsShow(s, e, d);
    case Updates(_) => UpdatesShow(s, e, d);
    case TrustChanges(_) => TrustChangesShow(s, e, d);
    case Fires(h) => if s.timers[h].job.Window? { WindowsShow(s, e, d); } else { ClearingPushesShow(s, e, d); }
    case _ =>
  }

  // ---- What a press and an outcome are answered with ----

  /** A press of a restored switch is refused and clears without a republish; one nobody handles is stored as it is. */
  lemma UnboundPressesAreAnswered(s: System, c: Capability, value: bool)
    requires Inv(s) && Enabled(s, Press(c, value)) && !s.handler[c].Binder?
    ensures var t := Step(s, Press(c, value));
            && t.sends == s.sends && t.requested == s.requested
            && (s.handler[c].Unhandled? ==> t.landing.Nothing? && t.timers == s.timers)
            && (s.handler[c].RestoredRefusal? ==>
                  && t.landing == Refusal(c, NotAllowedInCurrentState)
                  && t.timers == s.timers[s.nextHandle := Timer(s.now, ClearingPush(c, false))])
  {
  }

  /** A sent press opens a window of thirty seconds that remembers what the switch served before it. */
  lemma SentPressesOpenAWindow(s: System, c: Capability, value: bool)
    requires Inv(s) && Enabled(s, Press(c, value)) && s.handler[c].Binder? && Step(s, Press(c, value)).sends != s.sends
    ensures var t := Step(s, Press(c, value));
            && t.timers == s.timers[s.nextHandle := Timer(s.now + 30 * 1000, Window(c, s.on[c].value))]
            && t.requested == s.requested[c := PendingRequest(true, s.nextHandle, s.now)]
            && s.nextHandle !in s.timers
  {
    PressesSendExactlyWhen(s, c, value);
  }

  /** A refused press of a bound switch clears by a push that republishes, due at once. */
  lemma RefusedPressesArmAPush(s: System, c: Capability, value: bool)
    requires Inv(s) && Enabled(s, Press(c, value)) && s.handler[c].Binder? && Step(s, Press(c, value)).sends == s.sends
    ensures Step(s, Press(c, value)).timers == s.timers[s.nextHandle := Timer(s.now, ClearingPush(c, true))]
  {
    PressesSendExactlyWhen(s, c, value);
  }

  /** The vendor's acceptance is stored as the value asked for, its error as a failed communication, its silence as a timeout. */
  lemma OutcomesAreAnswered(s: System, id: nat, answer: Answer)
    requires Inv(s) && Enabled(s, Outcome(id, answer))
    ensures var c, t := s.sends[id], Step(s, Outcome(id, answer));
            && t.sends == s.sends - {id}
            && t.landing == (match answer
                             case Accepted => Acceptance(c, true)
                             case VendorError => Refusal(c, CommunicationFailure)
                             case TimedOut => Refusal(c, OperationTimedOut))
            && t.requested == (if answer.VendorError? then s.requested - {c} else s.requested)
            && (answer.Accepted? ==> t.timers == s.timers)
            && (!answer.Accepted? ==> s.nextHandle in t.timers && t.timers[s.nextHandle] == Timer(s.now, ClearingPush(c, true)))
  {
  }

  lemma ReportsBind(s: System, e: Event)
    requires Enabled(s, e) && (e.Updates? || e.TrustChanges?)
    ensures Step(s, e).handler == (map c | c in s.handler :: Binder) && Step(s, e).facts == e.facts
  {
    var told := s.(facts := e.facts, handler := map c | c in s.handler :: Binder);
    var once := Reconciled(told, SelfTest);
    assert Reconciled(once, AlarmMute).handler == once.handler == told.handler;
  }

  lemma PressesBindNothing(s: System, c: Capability, value: bool)
    requires Enabled(s, Press(c, value))
    ensures Step(s, Press(c, value)).handler == s.handler && Step(s, Press(c, value)).facts == s.facts
  {
    var started := s.(on := s.on[c := s.on[c].(status := Success)]);
    assert Answered(started, c, value).handler == s.handler && Answered(started, c, value).facts == s.facts;
  }

  lemma TimersBindNothing(s: System, h: nat)
    requires Enabled(s, Fires(h))
    ensures Step(s, Fires(h)).handler == s.handler && Step(s, Fires(h)).facts == s.facts
  {
  }

  /** A landing leaves nothing to land, and the passing of time moves the clock alone. */
  lemma LandingsAndTimeMoveOn(s: System, to: int)
    ensures Enabled(s, Lands) ==> Step(s, Lands) == s.(on := Step(s, Lands).on, landing := Nothing)
    ensures Enabled(s, TimePasses(to)) ==> Step(s, TimePasses(to)) == s.(now := to)
  {
  }

  /** An update or a trust push binds every switch under its own facts, and nothing ever unbinds one. */
  lemma PassesBind(s: System, e: Event, c: Capability)
    requires Inv(s) && Enabled(s, e)
    ensures c in Step(s, e).handler && Step(s, e).handler[c] == if e.Updates? || e.TrustChanges? then Binder else s.handler[c]
    ensures Step(s, e).facts == if e.Updates? || e.TrustChanges? then e.facts else s.facts
  {
    match e
    case Updates(_) => ReportsBind(s, e);
    case TrustChanges(_) => ReportsBind(s, e);
    case Press(d, value) => PressesBindNothing(s, d, value);
    case Fires(h) => TimersBindNothing(s, h);
    case Outcome(id, answer) => AnswersBindNothing(s, id, answer);
    case _ =>
  }

  lemma AnswersBindNothing(s: System, id: nat, answer: Answer)
    requires Enabled(s, Outcome(id, answer))
    ensures Step(s, Outcome(id, answer)).handler == s.handler && Step(s, Outcome(id, answer)).facts == s.facts
  {
  }

  // ---- What may happen when ----

  /**
   * Whatever the state, something can happen: a settled handler's status lands before
   * anything else; otherwise any switch can be pressed, any command can be answered,
   * any report can come, every due timer can run, and time can pass up to the next
   * deadline and not beyond.
   */
  lemma EverythingElseWaitsForTheLanding(s: System, c: Capability, value: bool, id: nat, answer: Answer, facts: Facts, h: nat, to: int)
    requires Inv(s)
    ensures Enabled(s, Lands) <==> !s.landing.Nothing?
    ensures Enabled(s, Press(c, value)) <==> s.landing.Nothing?
    ensures Enabled(s, Outcome(id, answer)) <==> s.landing.Nothing? && id in s.sends
    ensures Enabled(s, Updates(facts)) <==> s.landing.Nothing?
    ensures Enabled(s, TrustChanges(facts)) <==> s.landing.Nothing? && facts.decoded == s.facts.decoded
    ensures Enabled(s, Fires(h)) <==> s.landing.Nothing? && h in s.timers && s.timers[h].due == s.now
    ensures Enabled(s, TimePasses(to)) <==> s.landing.Nothing? && s.now <= to && forall k :: k in s.timers ==> to <= s.timers[k].due
  {
  }
}
