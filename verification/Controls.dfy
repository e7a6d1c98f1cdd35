/**
 * The control write path (`src/accessories/controls.ts`) against HAP's write
 * semantics (`features/lib/hap.ts`).
 *
 * Each control Switch has one `On` characteristic. A press, a command's outcome, a
 * device report and a timer are macrotasks that interleave freely; the status or
 * value HAP stores after a handler settles lands in the microtask right behind the
 * macrotask that settled it, before any other of them runs.
 */
module Controls {
  import opened Wrappers

  const PENDING_WINDOW_MS := 30_000

  datatype Capability = SelfTest | AlarmMute

  datatype Status = Success | NotAllowedInCurrentState | ResourceBusy | OperationTimedOut | CommunicationFailure

  /** The characteristic: reads answer `value` only while `status` is a success. */
  datatype On = On(value: bool, status: Status)

  datatype Handler = Unhandled | RestoredRefusal | Binder

  /** What the accessory answers the binder from. */
  datatype Facts = Facts(
    decoded: map<Capability, bool>,
    withheld: set<Capability>,
    offlineConfirmed: bool,
    transportReady: bool,
    confirmationObservable: bool,
    credentialsRejected: bool)

  /** The reported value the row may publish. */
  function Reported(facts: Facts, c: Capability): Option<bool> {
    if c in facts.decoded && c !in facts.withheld then Some(facts.decoded[c]) else None
  }

  /** The one value a capability will ever be asked for. */
  function AcceptedValueOf(c: Capability): bool {
    true
  }

  datatype Cause =
    | OnlyOnRequests
    | NoCommandTransport
    | QuietLiveConnection
    | NoFreshState
    | ConfirmedOffline
    | AlreadyActive
    | AwaitingConfirmation

  /** The rules in the order they are evaluated; the first that applies answers the write. */
  function LocalRefusal(facts: Facts, c: Capability, value: bool, pending: bool): Option<Cause> {
    if value != AcceptedValueOf(c) then Some(OnlyOnRequests)
    else if !facts.transportReady then Some(NoCommandTransport)
    else if !facts.confirmationObservable then Some(QuietLiveConnection)
    else if Reported(facts, c).None? then Some(NoFreshState)
    else if facts.offlineConfirmed then Some(ConfirmedOffline)
    else if Reported(facts, c) == Some(AcceptedValueOf(c)) then Some(AlreadyActive)
    else if pending then Some(AwaitingConfirmation)
    else None
  }

  function StatusOf(cause: Cause): Status {
    if cause.AlreadyActive? || cause.AwaitingConfirmation? then ResourceBusy else NotAllowedInCurrentState
  }

  /** An unresolved request: the deadline that ends it, and when it was made. */
  datatype PendingRequest = PendingRequest(value: bool, handle: nat, since: int)

  datatype Job =
    | Window(capability: Capability, previousValue: bool)
    | ClearingPush(capability: Capability, republishes: bool)

  datatype Timer = Timer(due: int, job: Job)

  /** What HAP stores once the handler of a write has settled. */
  datatype Landing = Nothing | Refusal(capability: Capability, status: Status) | Acceptance(capability: Capability, value: bool)

  datatype Answer = Accepted | VendorError | TimedOut

  datatype System = System(
    now: int,
    facts: Facts,
    on: map<Capability, On>,
    handler: map<Capability, Handler>,
    requested: map<Capability, PendingRequest>,
    timers: map<nat, Timer>,
    nextHandle: nat,
    // Every command still out, and the capability it was sent for.
    sends: map<nat, Capability>,
    nextSend: nat,
    landing: Landing)

  datatype Event =
    | Press(capability: Capability, value: bool)
    | Lands
    | Outcome(send: nat, answer: Answer)
    | Updates(facts: Facts)
    | TrustChanges(facts: Facts)
    | Fires(handle: nat)
    | TimePasses(to: int)

  ghost predicate Wired(s: System) {
    forall c: Capability :: c in s.on && c in s.handler
  }

  predicate Enabled(s: System, e: Event) {
    match e
    case Lands => !s.landing.Nothing?
    case Press(c, _) => s.landing.Nothing? && c in s.on && c in s.handler
    case Outcome(id, _) => s.landing.Nothing? && id in s.sends
    case Updates(_) => s.landing.Nothing?
    case TrustChanges(facts) => s.landing.Nothing? && facts.decoded == s.facts.decoded
    case Fires(h) => s.landing.Nothing? && h in s.timers && s.timers[h].due <= s.now
    case TimePasses(to) => s.landing.Nothing? && to >= s.now && forall h :: h in s.timers ==> to <= s.timers[h].due
  }

  function Armed(s: System, job: Job, delayMs: nat): System {
    s.(timers := s.timers[s.nextHandle := Timer(s.now + delayMs, job)], nextHandle := s.nextHandle + 1)
  }

  function Resolved(s: System, c: Capability): System {
    if c in s.requested then s.(timers := s.timers - {s.requested[c].handle}, requested := s.requested - {c}) else s
  }

  function Pushed(s: System, c: Capability, value: bool): System {
    s.(on := s.on[c := On(value, Success)])
  }

  /** A row publishes its reported value unless its request is pending. */
  function RowShown(s: System, c: Capability): On
    requires c in s.on
  {
    if Reported(s.facts, c).Some? && c !in s.requested then On(Reported(s.facts, c).value, Success) else s.on[c]
  }

  /** A pass over the control rows. */
  function Published(s: System): System {
    s.(on := map c | c in s.on :: RowShown(s, c))
  }

  function Republished(s: System): System {
    if s.facts.credentialsRejected then s else Published(s)
  }

  function Held(s: System, c: Capability): bool {
    c in s.on && s.on[c].value
  }

  function OrElse(reported: Option<bool>, held: bool): bool {
    if reported.Some? then reported.value else held
  }

  function Refused(s: System, c: Capability, status: Status): System {
    Armed(s, ClearingPush(c, true), 0).(landing := Refusal(c, status))
  }

  /** A command leaves: its request is pending until the window it arms closes. */
  function Sent(s: System, c: Capability, previousValue: bool): System {
    Armed(s, Window(c, previousValue), PENDING_WINDOW_MS).(
      requested := s.requested[c := PendingRequest(AcceptedValueOf(c), s.nextHandle, s.now)],
      sends := s.sends[s.nextSend := c],
      nextSend := s.nextSend + 1)
  }

  /** The binder answers a write by the first rule that refuses it, or sends. */
  function Answered(s: System, c: Capability, value: bool): System
    requires c in s.on
  {
    var refusal := LocalRefusal(s.facts, c, value, c in s.requested);
    if refusal.Some? then Refused(s, c, StatusOf(refusal.value)) else Sent(s, c, s.on[c].value)
  }

  function Pressed(s: System, c: Capability, value: bool): System
    requires c in s.on && c in s.handler
  {
    var started := s.(on := s.on[c := s.on[c].(status := Success)]);
    match s.handler[c]
    case Unhandled => started.(on := s.on[c := On(value, Success)])
    case RestoredRefusal => Armed(started, ClearingPush(c, false), 0).(landing := Refusal(c, NotAllowedInCurrentState))
    case Binder => Answered(started, c, value)
  }

  function Reconciled(s: System, c: Capability): System {
    if c in s.requested && c in s.facts.decoded && s.facts.decoded[c] == s.requested[c].value then Resolved(s, c) else s
  }

  function Fired(s: System, h: nat): System
    requires h in s.timers
  {
    var ran := s.(timers := s.timers - {h});
    match s.timers[h].job
    case Window(c, previousValue) =>
      if c !in s.requested then
        ran
      else
        var ended := Republished(ran.(requested := s.requested - {c}));
        Pushed(ended, c, OrElse(Reported(s.facts, c), previousValue))
    case ClearingPush(c, republishes) =>
      var pushed := if republishes then Republished(ran) else ran;
      Pushed(pushed, c, OrElse(if republishes then Reported(s.facts, c) else None, Held(pushed, c)))
  }

  function Step(s: System, e: Event): System
    requires Enabled(s, e)
  {
    match e
    case Press(c, value) => Pressed(s, c, value)
    case Lands =>
      (match s.landing
       case Refusal(c, status) => s.(landing := Nothing, on := s.on[c := On(Held(s, c), status)])
       case Acceptance(c, value) => s.(landing := Nothing, on := s.on[c := On(value, Success)]))
    case Outcome(id, answer) =>
      var c := s.sends[id];
      var settled := s.(sends := s.sends - {id});
      (match answer
       case Accepted => settled.(landing := Acceptance(c, AcceptedValueOf(c)))
       case VendorError => Refused(Resolved(settled, c), c, CommunicationFailure)
       case TimedOut => Refused(settled, c, OperationTimedOut))
    case Updates(facts) =>
      var told := s.(facts := facts, handler := map c | c in s.handler :: Binder);
      Published(Reconciled(Reconciled(told, SelfTest), AlarmMute))
    case TrustChanges(facts) => Published(s.(facts := facts, handler := map c | c in s.handler :: Binder))
    case Fires(h) => Fired(s, h)
    case TimePasses(to) => s.(now := to)
  }

  // ---- Windows and requests ----

  /** Requests and live windows are in bijection, and no deadline lies in the past or past its window. */
  ghost predicate Matched(timers: map<nat, Timer>, requested: map<Capability, PendingRequest>, nextHandle: nat, now: int) {
    && (forall h :: h in timers ==> h < nextHandle && timers[h].due >= now)
    && (forall c :: c in requested ==>
          && requested[c].handle in timers
          && timers[requested[c].handle].job.Window?
          && timers[requested[c].handle].job.capability == c
          && timers[requested[c].handle].due == requested[c].since + PENDING_WINDOW_MS)
    && (forall h :: h in timers && timers[h].job.Window? ==>
          timers[h].job.capability in requested && requested[timers[h].job.capability].handle == h)
  }

  ghost predicate WindowsMatch(s: System) {
    Matched(s.timers, s.requested, s.nextHandle, s.now)
  }

  // ---- Readability ----

  /** A clearing push for the capability is armed and due at once. */
  ghost predicate DueNow(timers: map<nat, Timer>, now: int, c: Capability) {
    exists h :: h in timers && timers[h].job.ClearingPush? && timers[h].job.capability == c && timers[h].due == now
  }

  ghost predicate ClearingArmed(s: System, c: Capability) {
    DueNow(s.timers, s.now, c)
  }

  predicate Unreadable(s: System, c: Capability) {
    (c in s.on && s.on[c].status != Success) || (s.landing.Refusal? && s.landing.capability == c)
  }

  ghost predicate RefusalsWillClear(s: System) {
    && (forall c :: Unreadable(s, c) ==> ClearingArmed(s, c))
    && (forall h :: h in s.timers && s.timers[h].job.ClearingPush? ==> s.timers[h].due == s.now)
  }

  /** Commands are numbered as they leave. */
  ghost predicate SendsNumbered(s: System) {
    forall id :: id in s.sends ==> id < s.nextSend
  }

  ghost predicate Inv(s: System) {
    Wired(s) && WindowsMatch(s) && RefusalsWillClear(s) && SendsNumbered(s)
  }

  /** A step that makes nothing unreadable, and keeps the clearing pushes still needed, keeps every refusal clearing. */
  lemma KeepsClearing(s: System, t: System)
    requires RefusalsWillClear(s) && t.now == s.now
    requires forall c :: Unreadable(t, c) ==> Unreadable(s, c)
    requires forall h :: h in s.timers && s.timers[h].job.ClearingPush? && Unreadable(t, s.timers[h].job.capability) ==>
               h in t.timers && t.timers[h] == s.timers[h]
    requires forall h :: h in t.timers && t.timers[h].job.ClearingPush? ==> t.timers[h].due == t.now
    ensures RefusalsWillClear(t)
  {
    forall c | Unreadable(t, c)
      ensures ClearingArmed(t, c)
    {
      assert Unreadable(s, c);
      var h :| h in s.timers && s.timers[h].job.ClearingPush? && s.timers[h].job.capability == c && s.timers[h].due == s.now;
      assert h in t.timers;
    }
  }

  lemma ResolvedKeepsInv(s: System, c: Capability)
    requires Inv(s)
    ensures Inv(Resolved(s, c))
  {
    KeepsClearing(s, Resolved(s, c));
  }

  /** Anything that only touches `On`, and leaves every success a success, keeps the invariant. */
  lemma PublishingKeepsInv(s: System, t: System)
    requires Inv(s) && t == s.(on := t.on, facts := t.facts, handler := t.handler) && Wired(t)
    requires forall c :: c in t.on && t.on[c].status != Success ==> c in s.on && s.on[c].status != Success
    ensures Inv(t)
  {
    KeepsClearing(s, t);
  }

  lemma RefusedKeepsInv(s: System, c: Capability, status: Status)
    requires Inv(s) && s.landing.Nothing?
    ensures Inv(Refused(s, c, status))
  {
    ArmingKeepsInv(s, c, true, status);
  }

  lemma ArmingKeepsInv(s: System, c: Capability, republishes: bool, status: Status)
    requires Inv(s) && s.landing.Nothing?
    ensures Inv(Armed(s, ClearingPush(c, republishes), 0).(landing := Refusal(c, status)))
  {
    var t := Armed(s, ClearingPush(c, republishes), 0).(landing := Refusal(c, status));
    forall d | Unreadable(t, d)
      ensures ClearingArmed(t, d)
    {
      if d == c {
        assert t.timers[s.nextHandle].job == ClearingPush(c, republishes);
      } else {
        assert Unreadable(s, d);
        var h :| h in s.timers && s.timers[h].job.ClearingPush? && s.timers[h].job.capability == d && s.timers[h].due == s.now;
        assert t.timers[h] == s.timers[h];
      }
    }
  }

  lemma AcceptedPressKeepsInv(s: System, c: Capability, previousValue: bool)
    requires Inv(s) && s.landing.Nothing? && c !in s.requested
    ensures Inv(Sent(s, c, previousValue))
  {
    var t := Sent(s, c, previousValue);
    assert WindowsMatch(t);
    KeepsClearing(s, t);
  }

  lemma AnsweringKeepsInv(s: System, c: Capability, value: bool)
    requires Inv(s) && s.landing.Nothing? && c in s.on
    ensures Inv(Answered(s, c, value))
  {
    var refusal := LocalRefusal(s.facts, c, value, c in s.requested);
    if refusal.Some? {
      RefusedKeepsInv(s, c, StatusOf(refusal.value));
    } else {
      AcceptedPressKeepsInv(s, c, s.on[c].value);
    }
  }

  lemma PressKeepsInv(s: System, c: Capability, value: bool)
    requires Inv(s) && Enabled(s, Press(c, value))
    ensures Inv(Pressed(s, c, value))
  {
    var started := s.(on := s.on[c := s.on[c].(status := Success)]);
    PublishingKeepsInv(s, started);
    match s.handler[c]
    case Unhandled => PublishingKeepsInv(s, Pressed(s, c, value));
    case RestoredRefusal => ArmingKeepsInv(started, c, false, NotAllowedInCurrentState);
    case Binder => AnsweringKeepsInv(started, c, value);
  }

  lemma WindowClosesKeepsInv(s: System, h: nat)
    requires Inv(s) && h in s.timers && s.timers[h].job.Window?
    ensures Inv(s.(timers := s.timers - {h}, requested := s.requested - {s.timers[h].job.capability}))
  {
    KeepsClearing(s, s.(timers := s.timers - {h}, requested := s.requested - {s.timers[h].job.capability}));
  }

  /** A timer that has run leaves its capability readable, so nothing else loses its clearing push. */
  lemma ExpiringKeepsInv(s: System, h: nat)
    requires Inv(s) && Enabled(s, Fires(h)) && s.timers[h].job.Window?
    ensures Inv(Fired(s, h))
  {
    WindowClosesKeepsInv(s, h);
    PublishingKeepsInv(s.(timers := s.timers - {h}, requested := s.requested - {s.timers[h].job.capability}), Fired(s, h));
  }

  lemma ClearingKeepsInv(s: System, h: nat)
    requires Inv(s) && Enabled(s, Fires(h)) && s.timers[h].job.ClearingPush?
    ensures Inv(Fired(s, h))
  {
    var c, t := s.timers[h].job.capability, Fired(s, h);
    assert t.on[c].status == Success && t.timers == s.timers - {h};
    KeepsClearing(s, t);
  }

  lemma LandingKeepsInv(s: System)
    requires Inv(s) && Enabled(s, Lands)
    ensures Inv(Step(s, Lands))
  {
    KeepsClearing(s, Step(s, Lands));
  }

  lemma ReconcilingKeepsInv(s: System, c: Capability)
    requires Inv(s)
    ensures Inv(Reconciled(s, c))
  {
    ResolvedKeepsInv(s, c);
  }

  lemma PublishedKeepsInv(s: System)
    requires Inv(s)
    ensures Inv(Published(s))
  {
    PublishingKeepsInv(s, Published(s));
  }

  lemma ReportKeepsInv(s: System, e: Event)
    requires Inv(s) && Enabled(s, e) && (e.Updates? || e.TrustChanges?)
    ensures Inv(Step(s, e))
  {
    var told := s.(facts := e.facts, handler := map c | c in s.handler :: Binder);
    PublishingKeepsInv(s, told);
    if e.Updates? {
      ReconcilingKeepsInv(told, SelfTest);
      ReconcilingKeepsInv(Reconciled(told, SelfTest), AlarmMute);
      PublishedKeepsInv(Reconciled(Reconciled(told, SelfTest), AlarmMute));
    } else {
      PublishedKeepsInv(told);
    }
  }

  lemma OutcomeKeepsInv(s: System, id: nat, answer: Answer)
    requires Inv(s) && Enabled(s, Outcome(id, answer))
    ensures Inv(Step(s, Outcome(id, answer)))
  {
    var c, settled := s.sends[id], s.(sends := s.sends - {id});
    KeepsClearing(s, settled);
    assert Inv(settled);
    match answer
    case Accepted =>
      KeepsClearing(settled, Step(s, Outcome(id, answer)));
    case VendorError =>
      ResolvedKeepsInv(settled, c);
      RefusedKeepsInv(Resolved(settled, c), c, CommunicationFailure);
    case TimedOut => RefusedKeepsInv(settled, c, OperationTimedOut);
  }

  /** No clearing push is still armed when time moves, so a switch is readable whenever it does. */
  lemma TimeKeepsInv(s: System, to: int)
    requires Inv(s) && Enabled(s, TimePasses(to))
    ensures Inv(Step(s, TimePasses(to)))
  {
    var t := Step(s, TimePasses(to));
    forall d | Unreadable(t, d)
      ensures ClearingArmed(t, d)
    {
      assert Unreadable(s, d);
      var h :| h in s.timers && s.timers[h].job.ClearingPush? && s.timers[h].job.capability == d && s.timers[h].due == s.now;
      assert h in t.timers && to == s.now;
    }
  }

  lemma StepKeepsInv(s: System, e: Event)
    requires Inv(s) && Enabled(s, e)
    ensures Inv(Step(s, e))
  {
    match e
    case Press(c, value) => PressKeepsInv(s, c, value);
    case Lands => LandingKeepsInv(s);
    case Outcome(id, answer) => OutcomeKeepsInv(s, id, answer);
    case Updates(_) => ReportKeepsInv(s, e);
    case TrustChanges(_) => ReportKeepsInv(s, e);
    case Fires(h) => if s.timers[h].job.Window? { ExpiringKeepsInv(s, h); } else { ClearingKeepsInv(s, h); }
    case TimePasses(to) => TimeKeepsInv(s, to);
  }

  ghost predicate Possible(s: System, es: seq<Event>)
    decreases |es|
  {
    es == [] || (Enabled(s, es[0]) && Possible(Step(s, es[0]), es[1..]))
  }

  ghost function Run(s: System, es: seq<Event>): System
    requires Possible(s, es)
    decreases |es|
  {
    if es == [] then s else Run(Step(s, es[0]), es[1..])
  }

  lemma {:induction false} RunKeepsInv(s: System, es: seq<Event>)
    requires Inv(s) && Possible(s, es)
    ensures Inv(Run(s, es))
    decreases |es|
  {
    if es != [] {
      StepKeepsInv(s, es[0]);
      RunKeepsInv(Step(s, es[0]), es[1..]);
    }
  }

  /** Both switches as they come up: any value, any handler, nothing refused and nothing pending. */
  ghost predicate Initial(s: System) {
    && Wired(s) && s.requested == map[] && s.timers == map[] && s.sends == map[] && s.landing.Nothing?
    && forall c :: c in s.on ==> s.on[c].status == Success
  }

  /**
   * In every interleaving: a switch that carries a refusal, or is about to, has a
   * clearing push armed for this very instant; and once the due timers have run,
   * every switch is readable. Pending requests and live windows are in bijection,
   * and no request is older than the window.
   */
  lemma RefusalsAlwaysClear(s: System, es: seq<Event>)
    requires Initial(s) && Possible(s, es)
    ensures var t := Run(s, es);
            && (forall c :: c in t.on && t.on[c].status != Success ==> ClearingArmed(t, c))
            && (t.landing.Nothing? && (forall h :: h in t.timers ==> t.timers[h].due > t.now) ==>
                  forall c :: c in t.on ==> t.on[c].status == Success)
            && WindowsMatch(t)
            && (forall c :: c in t.requested ==> t.now - t.requested[c].since <= PENDING_WINDOW_MS)
  {
    RunKeepsInv(s, es);
    var t := Run(s, es);
    assert forall c :: c in t.on && t.on[c].status != Success ==> Unreadable(t, c);
  }

  // ---- What separates two commands ----

  predicate Sends(s: System, e: Event, c: Capability) {
    && e.Press? && e.capability == c && c in s.handler && s.handler[c].Binder?
    && LocalRefusal(s.facts, c, e.value, c in s.requested).None?
  }

  /** A report of the value asked for, a vendor error for the capability, or its window closing. */
  predicate Ends(s: System, e: Event, c: Capability)
    requires Enabled(s, e)
  {
    || (e.Updates? && c in e.facts.decoded && e.facts.decoded[c] == AcceptedValueOf(c))
    || (e.Outcome? && e.answer.VendorError? && s.sends[e.send] == c)
    || (e.Fires? && s.timers[e.handle].job.Window? && s.timers[e.handle].job.capability == c)
  }

  ghost predicate NeverEnds(s: System, es: seq<Event>, c: Capability)
    requires Possible(s, es)
    decreases |es|
  {
    es == [] || (!Ends(s, es[0], c) && NeverEnds(Step(s, es[0]), es[1..], c))
  }

  ghost predicate EverSends(s: System, es: seq<Event>, c: Capability)
    requires Possible(s, es)
    decreases |es|
  {
    es != [] && (Sends(s, es[0], c) || EverSends(Step(s, es[0]), es[1..], c))
  }

  ghost predicate ValuesAccepted(s: System) {
    forall c :: c in s.requested ==> s.requested[c].value == AcceptedValueOf(c)
  }

  lemma ReconcilingResolves(s: System, over: Capability, c: Capability)
    requires ValuesAccepted(s) && c in s.requested
    ensures var t := Reconciled(s, over);
            && (c in t.requested <==> !(c == over && c in s.facts.decoded && s.facts.decoded[c] == AcceptedValueOf(c)))
            && (c in t.requested ==> t.requested[c] == s.requested[c])
            && ValuesAccepted(t) && t.facts == s.facts
  {
  }

  lemma ReportsResolve(s: System, facts: Facts, c: Capability)
    requires ValuesAccepted(s) && Enabled(s, Updates(facts)) && c in s.requested
    requires forall d :: d in s.requested && d != c ==> s.requested[d].handle != s.requested[c].handle
    ensures var t := Step(s, Updates(facts));
            && (c in t.requested <==> !(c in facts.decoded && facts.decoded[c] == AcceptedValueOf(c)))
            && (c in t.requested ==> t.requested[c] == s.requested[c])
            && ValuesAccepted(t)
  {
    var told := s.(facts := facts, handler := map d | d in s.handler :: Binder);
    var once := Reconciled(told, SelfTest);
    ReconcilingResolves(told, SelfTest, c);
    if c in once.requested {
      ReconcilingResolves(once, AlarmMute, c);
    }
    assert Step(s, Updates(facts)).requested == Reconciled(once, AlarmMute).requested;
  }

  lemma PressesKeepRequests(s: System, e: Event, c: Capability)
    requires ValuesAccepted(s) && Enabled(s, e) && e.Press? && c in s.requested
    ensures c in Step(s, e).requested && Step(s, e).requested[c] == s.requested[c] && ValuesAccepted(Step(s, e))
  {
    assert e.capability == c ==> LocalRefusal(s.facts, c, e.value, true).Some?;
  }

  lemma TimersKeepOtherRequests(s: System, h: nat, c: Capability)
    requires Inv(s) && ValuesAccepted(s) && Enabled(s, Fires(h)) && c in s.requested
    ensures c in Fired(s, h).requested <==> !Ends(s, Fires(h), c)
    ensures c in Fired(s, h).requested ==> Fired(s, h).requested[c] == s.requested[c]
    ensures ValuesAccepted(Fired(s, h))
  {
    assert Fired(s, h).requested == if s.timers[h].job.Window? then s.requested - {s.timers[h].job.capability} else s.requested;
  }

  lemma OutcomesKeepRequests(s: System, e: Event, c: Capability)
    requires ValuesAccepted(s) && Enabled(s, e) && e.Outcome? && c in s.requested
    ensures c in Step(s, e).requested <==> !Ends(s, e, c)
    ensures c in Step(s, e).requested ==> Step(s, e).requested[c] == s.requested[c]
    ensures ValuesAccepted(Step(s, e))
  {
    var over := s.sends[e.send];
    assert Step(s, e).requested == if e.answer.VendorError? then s.requested - {over} else s.requested;
  }

  /** A pending request survives every event but the three that end it, and is resolved by each of them. */
  lemma RequestsEndOnlyByThree(s: System, e: Event, c: Capability)
    requires Inv(s) && ValuesAccepted(s) && Enabled(s, e) && c in s.requested
    ensures c in Step(s, e).requested <==> !Ends(s, e, c)
    ensures c in Step(s, e).requested ==> Step(s, e).requested[c] == s.requested[c]
    ensures ValuesAccepted(Step(s, e))
  {
    match e
    case Updates(facts) => ReportsResolve(s, facts, c);
    case Press(_, _) => PressesKeepRequests(s, e, c);
    case Fires(h) => TimersKeepOtherRequests(s, h, c);
    case Outcome(_, _) => OutcomesKeepRequests(s, e, c);
    case _ => assert Step(s, e).requested == s.requested;
  }

  lemma {:induction false} PendingBlocksSends(s: System, es: seq<Event>, c: Capability)
    requires Inv(s) && ValuesAccepted(s) && Possible(s, es) && c in s.requested && NeverEnds(s, es, c)
    ensures !EverSends(s, es, c)
    ensures c in Run(s, es).requested && Run(s, es).requested[c] == s.requested[c]
    decreases |es|
  {
    if es != [] {
      StepKeepsInv(s, es[0]);
      RequestsEndOnlyByThree(s, es[0], c);
      PendingBlocksSends(Step(s, es[0]), es[1..], c);
    }
  }

  /**
   * Two commands for one capability are always separated by a matching report, a
   * vendor error for it or its window closing: after a send, a run without any of
   * those sends nothing more.
   */
  lemma SendsAreSeparated(s: System, press: Event, es: seq<Event>, c: Capability)
    requires Inv(s) && ValuesAccepted(s) && Enabled(s, press) && Sends(s, press, c)
    requires Possible(Step(s, press), es) && NeverEnds(Step(s, press), es, c)
    ensures !EverSends(Step(s, press), es, c)
  {
    StepKeepsInv(s, press);
    PendingBlocksSends(Step(s, press), es, c);
  }

  /** An expiry always ends the very request that armed it, exactly a window after it was made. */
  lemma ExpiriesEndTheirOwnRequest(s: System, h: nat)
    requires Inv(s) && Enabled(s, Fires(h)) && s.timers[h].job.Window?
    ensures var c := s.timers[h].job.capability;
            && c in s.requested && s.requested[c].handle == h
            && s.now == s.requested[c].since + PENDING_WINDOW_MS
            && c !in Step(s, Fires(h)).requested
  {
  }

  /** Everything the table asks before it looks at what the switch reads and what is pending. */
  predicate CanBeAsked(facts: Facts, c: Capability, value: bool) {
    value && facts.transportReady && facts.confirmationObservable && c in facts.decoded && c !in facts.withheld && !facts.offlineConfirmed
  }

  /**
   * A press of a bound switch sends its command if and only if it asks for the one
   * value there is, a transport is ready, a confirmation could be seen, the device
   * reports the capability as off, it is not confirmed offline and nothing is pending.
   * Otherwise nothing leaves, and the press is busy exactly when all but the last two
   * report it active or awaited.
   */
  lemma PressesSendExactlyWhen(s: System, c: Capability, value: bool)
    requires Inv(s) && Enabled(s, Press(c, value)) && s.handler[c].Binder?
    ensures var t := Step(s, Press(c, value));
            && (t.sends != s.sends <==> CanBeAsked(s.facts, c, value) && !s.facts.decoded[c] && c !in s.requested)
            && (t.sends != s.sends ==> t.sends == s.sends[s.nextSend := c] && t.landing.Nothing? && c in t.requested)
            && (t.sends == s.sends ==>
                  && t.requested == s.requested
                  && t.landing == Refusal(c, if CanBeAsked(s.facts, c, value) && (s.facts.decoded[c] || c in s.requested) then ResourceBusy
                                             else NotAllowedInCurrentState))
  {
    var started := s.(on := s.on[c := s.on[c].(status := Success)]);
    var refusal := LocalRefusal(s.facts, c, value, c in s.requested);
    if refusal.Some? {
      assert Pressed(s, c, value) == Refused(started, c, StatusOf(refusal.value));
    } else {
      assert Pressed(s, c, value) == Sent(started, c, started.on[c].value);
      assert s.nextSend !in s.sends;
    }
  }

  lemma RefusedPressHoldsStill(s: System, started: System, answered: System, c: Capability, status: Status)
    requires c in s.on && started == s.(on := s.on[c := s.on[c].(status := Success)])
    requires answered.on == started.on && answered.landing == Refusal(c, status) && status != Success
    ensures forall d :: d in s.on ==> d in Step(answered, Lands).on && Step(answered, Lands).on[d].value == s.on[d].value
    ensures c in Step(answered, Lands).on && Step(answered, Lands).on[c].status == status
  {
  }

  /** A refused press never moves the stored value: not when it is answered, and not when its status lands. */
  lemma RefusalsMoveNothing(s: System, c: Capability, value: bool)
    requires Inv(s) && Enabled(s, Press(c, value)) && !s.handler[c].Unhandled? && !Sends(s, Press(c, value), c)
    ensures var answered := Step(s, Press(c, value));
            && answered.landing.Refusal? && Enabled(answered, Lands)
            && answered.requested == s.requested && answered.sends == s.sends
            && (forall d :: d in s.on ==> Step(answered, Lands).on[d].value == s.on[d].value)
            && Step(answered, Lands).on[c].status != Success
  {
    var started := s.(on := s.on[c := s.on[c].(status := Success)]);
    if s.handler[c].RestoredRefusal? {
      RefusedPressHoldsStill(s, started, Pressed(s, c, value), c, NotAllowedInCurrentState);
    } else {
      var refusal := LocalRefusal(s.facts, c, value, c in s.requested);
      assert Pressed(s, c, value) == Refused(started, c, StatusOf(refusal.value));
      RefusedPressHoldsStill(s, started, Pressed(s, c, value), c, StatusOf(refusal.value));
    }
  }

  /**
   * Nor does a press that was sent and then refused by the vendor or never answered:
   * its outcome and the status that lands behind it leave every stored value alone.
   */
  lemma RefusedOutcomesMoveNothing(s: System, id: nat, answer: Answer)
    requires Inv(s) && Enabled(s, Outcome(id, answer)) && !answer.Accepted?
    ensures var c, answered := s.sends[id], Step(s, Outcome(id, answer));
            && answered.landing.Refusal? && Enabled(answered, Lands)
            && (forall d :: d in s.on ==> d in answered.on && answered.on[d] == s.on[d])
            && (forall d :: d in s.on ==> Step(answered, Lands).on[d].value == s.on[d].value)
            && c in s.on && Step(answered, Lands).on[c].status != Success
            && (c in answered.requested <==> c in s.requested && answer.TimedOut?)
  {
  }

  /** Its clearing push then publishes what the device reports, and otherwise what was already served. */
  lemma ClearingInventsNothing(s: System, h: nat)
    requires Inv(s) && Enabled(s, Fires(h)) && s.timers[h].job.ClearingPush?
    ensures var c, t := s.timers[h].job.capability, Step(s, Fires(h));
            && t.on[c].status == Success
            && (t.on[c].value == s.on[c].value || Reported(s.facts, c) == Some(t.on[c].value))
            && (forall d :: d in s.on && t.on[d] != s.on[d] && d != c ==> Reported(s.facts, d) == Some(t.on[d].value))
  {
  }

  // ---- One command in flight ----

  /** Every command still out has its capability's request pending, and no two are out for one capability. */
  ghost predicate OneInFlight(s: System) {
    && (forall id :: id in s.sends ==> s.sends[id] in s.requested)
    && (forall id, other :: id in s.sends && other in s.sends && s.sends[id] == s.sends[other] ==> id == other)
  }

  /** A matching report, or a closing window, for a capability whose command is still out. */
  predicate FreesEarly(s: System, e: Event)
    requires Enabled(s, e)
  {
    exists id | id in s.sends ::
      || (e.Updates? && s.sends[id] in e.facts.decoded && e.facts.decoded[s.sends[id]] == AcceptedValueOf(s.sends[id]))
      || (e.Fires? && s.timers[e.handle].job.Window? && s.timers[e.handle].job.capability == s.sends[id])
  }

  /** What a step that sends nothing and answers nothing frees is what breaks it. */
  lemma FreeingBreaks(s: System, t: System, freed: set<nat>)
    requires OneInFlight(s) && t.sends == s.sends && freed <= s.sends.Keys
    requires forall id :: id in s.sends ==> (s.sends[id] in t.requested <==> id !in freed)
    ensures OneInFlight(t) <==> freed == {}
  {
    if id :| id in freed {
      assert t.sends[id] !in t.requested;
    }
  }

  lemma ReportsFree(s: System, facts: Facts, t: System, id: nat)
    requires Inv(s) && ValuesAccepted(s) && OneInFlight(s) && Enabled(s, Updates(facts)) && t == Step(s, Updates(facts)) && id in s.sends
    ensures s.sends[id] in t.requested <==> !(s.sends[id] in facts.decoded && facts.decoded[s.sends[id]] == AcceptedValueOf(s.sends[id]))
  {
    ReportsResolve(s, facts, s.sends[id]);
  }

  lemma ReportsKeepOneInFlight(s: System, facts: Facts)
    requires Inv(s) && ValuesAccepted(s) && OneInFlight(s) && Enabled(s, Updates(facts))
    ensures OneInFlight(Step(s, Updates(facts))) <==> !FreesEarly(s, Updates(facts))
  {
    var t := Step(s, Updates(facts));
    var freed := set id | id in s.sends && s.sends[id] in facts.decoded && facts.decoded[s.sends[id]] == AcceptedValueOf(s.sends[id]);
    forall id | id in s.sends
      ensures s.sends[id] in t.requested <==> id !in freed
    {
      ReportsFree(s, facts, t, id);
    }
    FreeingBreaks(s, t, freed);
    assert freed == {} <==> !FreesEarly(s, Updates(facts));
  }

  lemma TimersKeepOneInFlight(s: System, h: nat)
    requires Inv(s) && ValuesAccepted(s) && OneInFlight(s) && Enabled(s, Fires(h))
    ensures OneInFlight(Step(s, Fires(h))) <==> !FreesEarly(s, Fires(h))
  {
    var t := Fired(s, h);
    var freed := set id | id in s.sends && s.timers[h].job.Window? && s.timers[h].job.capability == s.sends[id];
    forall id | id in s.sends
      ensures s.sends[id] in t.requested <==> id !in freed
    {
      TimersKeepOtherRequests(s, h, s.sends[id]);
    }
    FreeingBreaks(s, t, freed);
    assert freed == {} <==> !FreesEarly(s, Fires(h));
  }

  lemma OutcomesKeepOneInFlight(s: System, id: nat, answer: Answer)
    requires OneInFlight(s) && Enabled(s, Outcome(id, answer))
    ensures OneInFlight(Step(s, Outcome(id, answer)))
  {
    var t := Step(s, Outcome(id, answer));
    assert t.sends == s.sends - {id};
    assert forall c :: c in s.requested && c != s.sends[id] ==> c in t.requested;
  }

  lemma PressesKeepOneInFlight(s: System, c: Capability, value: bool)
    requires OneInFlight(s) && Enabled(s, Press(c, value))
    ensures OneInFlight(Step(s, Press(c, value)))
  {
    var t := Step(s, Press(c, value));
    if t.sends != s.sends {
      assert LocalRefusal(s.facts, c, value, c in s.requested).None?;
      assert t.sends == s.sends[s.nextSend := c] && t.requested.Keys == s.requested.Keys + {c};
    }
  }

  /**
   * One command in flight per capability survives a step if and only if the step is
   * not a matching report, nor a window closing, for a capability whose command is
   * still out.
   */
  lemma OneInFlightBreaksExactlyWhen(s: System, e: Event)
    requires Inv(s) && ValuesAccepted(s) && OneInFlight(s) && Enabled(s, e)
    ensures OneInFlight(Step(s, e)) <==> !FreesEarly(s, e)
  {
    match e
    case Updates(facts) => ReportsKeepOneInFlight(s, facts);
    case Fires(h) => TimersKeepOneInFlight(s, h);
    case Outcome(id, answer) => OutcomesKeepOneInFlight(s, id, answer);
    case Press(c, value) => PressesKeepOneInFlight(s, c, value);
    case _ =>
  }

  ghost predicate NeverFreesEarly(s: System, es: seq<Event>)
    requires Possible(s, es)
    decreases |es|
  {
    es == [] || (!FreesEarly(s, es[0]) && NeverFreesEarly(Step(s, es[0]), es[1..]))
  }

  ghost predicate AlwaysOneInFlight(s: System, es: seq<Event>)
    requires Possible(s, es)
    decreases |es|
  {
    OneInFlight(s) && (es == [] || AlwaysOneInFlight(Step(s, es[0]), es[1..]))
  }

  lemma AcceptedValuesAreKept(s: System, e: Event)
    requires Inv(s) && ValuesAccepted(s) && Enabled(s, e)
    ensures ValuesAccepted(Step(s, e))
  {
    if c :| c in s.requested {
      RequestsEndOnlyByThree(s, e, c);
    }
  }

  /**
   * Over every run, at most one command per capability is out at every point if and
   * only if no report and no window frees a request before its own command has answered.
   */
  lemma {:induction false} OneInFlightExactlyWhen(s: System, es: seq<Event>)
    requires Inv(s) && ValuesAccepted(s) && OneInFlight(s) && Possible(s, es)
    ensures AlwaysOneInFlight(s, es) <==> NeverFreesEarly(s, es)
    decreases |es|
  {
    if es != [] {
      OneInFlightBreaksExactlyWhen(s, es[0]);
      if !FreesEarly(s, es[0]) {
        StepKeepsInv(s, es[0]);
        AcceptedValuesAreKept(s, es[0]);
        OneInFlightExactlyWhen(Step(s, es[0]), es[1..]);
      }
    }
  }

  /** From the switches as they come up, whatever they serve. */
  lemma FreshSwitchesHaveOneInFlightExactlyWhen(s: System, es: seq<Event>)
    requires Initial(s) && Possible(s, es)
    ensures AlwaysOneInFlight(s, es) <==> NeverFreesEarly(s, es)
  {
    OneInFlightExactlyWhen(s, es);
  }

  lemma RunOfOne(s: System, e: Event)
    requires Enabled(s, e)
    ensures Possible(s, [e]) && Run(s, [e]) == Step(s, e)
  {
    assert [e][1..] == [];
  }

  lemma RunOfMore(s: System, e: Event, rest: seq<Event>)
    requires Enabled(s, e) && Possible(Step(s, e), rest)
    ensures Possible(s, [e] + rest) && Run(s, [e] + rest) == Run(Step(s, e), rest)
  {
    assert ([e] + rest)[1..] == rest;
  }

  lemma RunOfFour(s: System, es: seq<Event>, s1: System, s2: System, s3: System)
    requires |es| == 4
    requires Enabled(s, es[0]) && s1 == Step(s, es[0])
    requires Enabled(s1, es[1]) && s2 == Step(s1, es[1])
    requires Enabled(s2, es[2]) && s3 == Step(s2, es[2])
    requires Enabled(s3, es[3])
    ensures Possible(s, es) && Run(s, es) == Step(s3, es[3])
  {
    RunOfOne(s3, es[3]);
    RunOfMore(s2, es[2], [es[3]]);
    RunOfMore(s1, es[1], [es[2]] + [es[3]]);
    RunOfMore(s, es[0], [es[1]] + ([es[2]] + [es[3]]));
    assert es == [es[0]] + ([es[1]] + ([es[2]] + [es[3]]));
  }

  /**
   * One command in flight per capability is not among the guarantees. A confirming
   * report frees the request while its own send is still out; a later press sends
   * again; and the first command's late vendor error then ends the second request.
   */
  lemma TwoCommandsCanBeOut() returns (s: System, es: seq<Event>)
    ensures Initial(s) && Possible(s, es)
    ensures var t := Run(s, es);
            && t.sends == map[0 := SelfTest, 1 := SelfTest]
            && SelfTest in t.requested && t.requested[SelfTest].since == t.now
            && t.landing.Nothing? && SelfTest !in Step(t, Outcome(0, VendorError)).requested
  {
    var idle := Facts(map[SelfTest := false], {}, false, true, true, false);
    var running := idle.(decoded := map[SelfTest := true]);
    s := System(0, idle, map[SelfTest := On(false, Success), AlarmMute := On(false, Success)],
                map[SelfTest := Binder, AlarmMute := Binder], map[], map[], 0, map[], 0, Nothing);
    forall c: Capability
      ensures c in s.on && c in s.handler
    {
      match c
      case SelfTest =>
      case AlarmMute =>
    }
    es := [Press(SelfTest, true), Updates(running), Updates(idle), Press(SelfTest, true)];
    var s1 := Step(s, es[0]);
    var s2 := Step(s1, es[1]);
    var s3 := Step(s2, es[2]);
    var s4 := Step(s3, es[3]);
    assert SelfTest !in s2.requested && SelfTest !in s3.requested;
    assert s4.sends == map[0 := SelfTest, 1 := SelfTest];
    RunOfFour(s, es, s1, s2, s3);
    assert Enabled(s4, Outcome(0, VendorError));
  }

  /** The binder and the two characteristics it serves, updated in place by each macrotask. */
  class ControlBinder {
    var now: int
    var facts: Facts
    var on: map<Capability, On>
    var handler: map<Capability, Handler>
    var requested: map<Capability, PendingRequest>
    var timers: map<nat, Timer>
    var nextHandle: nat
    var sends: map<nat, Capability>
    var nextSend: nat
    var landing: Landing

    function Held(): System
      reads this
    {
      System(now, facts, on, handler, requested, timers, nextHandle, sends, nextSend, landing)
    }

    constructor (start: System)
      ensures Held() == start
    {
      now, facts, on, handler, requested := start.now, start.facts, start.on, start.handler, start.requested;
      timers, nextHandle, sends, nextSend, landing := start.timers, start.nextHandle, start.sends, start.nextSend, start.landing;
    }

    method SetTimeout(job: Job, delayMs: nat) returns (handle: nat)
      modifies `timers, `nextHandle
      ensures Held() == Armed(old(Held()), job, delayMs) && handle == old(nextHandle)
    {
      handle := nextHandle;
      timers := timers[handle := Timer(now + delayMs, job)];
      nextHandle := nextHandle + 1;
    }

    method PublishValue(c: Capability, value: bool)
      modifies `on
      ensures Held() == Pushed(old(Held()), c, value)
    {
      on := on[c := On(value, Success)];
    }

    method PublishControlRow(c: Capability)
      requires c in on
      modifies `on
      ensures Held() == old(Held()).(on := old(on)[c := RowShown(old(Held()), c)])
    {
      var reported := Reported(facts, c);
      if reported.Some? && c !in requested {
        PublishValue(c, reported.value);
      }
      assert on == old(on)[c := RowShown(old(Held()), c)];
    }

    method PublishControlRows()
      requires Wired(Held())
      modifies `on
      ensures Held() == Published(old(Held()))
    {
      PublishControlRow(SelfTest);
      PublishControlRow(AlarmMute);
      forall c | c in on
        ensures on[c] == Published(old(Held())).on[c]
      {
        match c
        case SelfTest =>
        case AlarmMute =>
      }
      assert on == Published(old(Held())).on;
    }

    /** A refused credential leaves nothing to re-assert, so nothing is republished over its marking. */
    method Republish()
      requires Wired(Held())
      modifies `on
      ensures Held() == Republished(old(Held()))
    {
      if !facts.credentialsRejected {
        PublishControlRows();
      }
    }

    method ResolvePending(c: Capability)
      modifies `timers, `requested
      ensures Held() == Resolved(old(Held()), c)
    {
      if c in requested {
        timers := timers - {requested[c].handle};
        requested := requested - {c};
      }
    }

    method Refuse(c: Capability, status: Status)
      modifies `timers, `nextHandle, `landing
      ensures Held() == Refused(old(Held()), c, status)
    {
      var _ := SetTimeout(ClearingPush(c, true), 0);
      landing := Refusal(c, status);
    }

    /** A press that no rule refuses: the request is recorded with its deadline and its command leaves. */
    method Send(c: Capability, previousValue: bool)
      modifies `timers, `nextHandle, `requested, `sends, `nextSend
      ensures Held() == Sent(old(Held()), c, previousValue)
    {
      var handle := SetTimeout(Window(c, previousValue), PENDING_WINDOW_MS);
      requested := requested[c := PendingRequest(AcceptedValueOf(c), handle, now)];
      sends := sends[nextSend := c];
      nextSend := nextSend + 1;
    }

    /** The binder's handler, up to the await of its command. */
    method AnswerWrite(c: Capability, value: bool)
      requires c in on
      modifies this
      ensures Held() == Answered(old(Held()), c, value)
    {
      var refusal := LocalRefusal(facts, c, value, c in requested);
      if refusal.Some? {
        Refuse(c, StatusOf(refusal.value));
      } else {
        Send(c, on[c].value);
      }
    }

    /** A HomeKit write: HAP clears the status, runs the handler, and stores what it settles with. */
    method HandleSetRequest(c: Capability, value: bool)
      requires Wired(Held()) && Enabled(Held(), Press(c, value))
      modifies this
      ensures Held() == Step(old(Held()), Press(c, value))
    {
      on := on[c := on[c].(status := Success)];
      match handler[c] {
        case Unhandled =>
          on := on[c := On(value, Success)];
        case RestoredRefusal =>
          var _ := SetTimeout(ClearingPush(c, false), 0);
          landing := Refusal(c, NotAllowedInCurrentState);
        case Binder =>
          AnswerWrite(c, value);
      }
    }

    method HandlerSettled()
      requires Wired(Held()) && Enabled(Held(), Lands)
      modifies this
      ensures Held() == Step(old(Held()), Lands)
    {
      match landing {
        case Refusal(c, status) => on := on[c := on[c].(status := status)];
        case Acceptance(c, value) => on := on[c := On(value, Success)];
      }
      landing := Nothing;
    }

    /** The rest of a press once its command has answered. A timeout keeps the request; a refusal ends it. */
    method CommandAnswered(id: nat, answer: Answer)
      requires Enabled(Held(), Outcome(id, answer))
      modifies this
      ensures Held() == Step(old(Held()), Outcome(id, answer))
    {
      var c := sends[id];
      sends := sends - {id};
      match answer {
        case Accepted =>
          landing := Acceptance(c, AcceptedValueOf(c));
        case VendorError =>
          ResolvePending(c);
          Refuse(c, CommunicationFailure);
        case TimedOut =>
          Refuse(c, OperationTimedOut);
      }
    }

    method Reconcile(c: Capability)
      modifies `timers, `requested
      ensures Held() == Reconciled(old(Held()), c)
    {
      if c in requested && c in facts.decoded && facts.decoded[c] == requested[c].value {
        ResolvePending(c);
      }
    }

    method Update(next: Facts)
      requires Wired(Held()) && Enabled(Held(), Updates(next))
      modifies this
      ensures Held() == Step(old(Held()), Updates(next))
    {
      facts := next;
      handler := map c | c in handler :: Binder;
      Reconcile(SelfTest);
      Reconcile(AlarmMute);
      PublishControlRows();
    }

    method MarkMonitoring(next: Facts)
      requires Wired(Held()) && Enabled(Held(), TrustChanges(next))
      modifies this
      ensures Held() == Step(old(Held()), TrustChanges(next))
    {
      facts := next;
      handler := map c | c in handler :: Binder;
      PublishControlRows();
    }

    method RunTimer(h: nat)
      requires Wired(Held()) && Enabled(Held(), Fires(h))
      modifies this
      ensures Held() == Step(old(Held()), Fires(h))
    {
      var job := timers[h].job;
      timers := timers - {h};
      match job {
        case Window(c, previousValue) =>
          if c !in requested {
            return;
          }
          requested := requested - {c};
          Republish();
          PublishValue(c, OrElse(Reported(facts, c), previousValue));
        case ClearingPush(c, republishes) =>
          if republishes {
            Republish();
          }
          PublishValue(c, OrElse(if republishes then Reported(facts, c) else None, on[c].value));
      }
    }
  }
}
