/**
 * What a shadow client tells its consumer, and what it asks of the broker
 * (`src/cloud/shadow.ts`): every notification of the connection in use has exactly its
 * own consequence, and a client that runs always has a next step.
 */
module ShadowReports {
  import opened Wrappers
  import opened RetryPolicy
  import opened ShadowClient

  /** The connection in use: the newest, neither given up nor closing. */
  predicate InUse(s: Client, i: nat) {
    s.connection == Some(i) && !s.closing && i < |s.connections| && !s.connections[i].released
  }

  /** The reason a notification of the connection in use gives it up for, if it does. */
  function GivesUp(s: Client, e: Event): Option<DisconnectReason>
    requires Enabled(s, e) && IsNotification(e)
  {
    match e
    case Errors(_) => Some(TransportError)
    case TransportCloses(i) => Some(if s.connections[i].established then TransportClosed else HandshakeRefused)
    case Settles(_, _, accepted) => if accepted then None else Some(SubscriptionRefused)
    case _ => None
  }

  /** What one event tells the consumer: a message of a routed device, a subscription that took hold, or why the connection ended. */
  function Told(s: Client, e: Event): seq<Report>
    requires Enabled(s, e)
  {
    if !IsNotification(e) || !InUse(s, e.over) then []
    else if GivesUp(s, e).Some? then [Disconnected(e.over, GivesUp(s, e).value)]
    else if e.Settles? then [Connected(e.over)]
    else if e.Messages? && e.readable && e.topic.deviceId in s.routes && !e.topic.leaf.GetRejected? then [Patched(e.over, e.topic.deviceId)]
    else []
  }

  lemma StepsTellExactly(s: Client, e: Event)
    requires Enabled(s, e)
    ensures Step(s, e).reports == s.reports + Told(s, e)
  {
  }

  /**
   * The retry guard: raised by the first connection given up while none is scheduled,
   * unless the root signal is aborted, and lowered by the retry's own settling or by an
   * abort that finds it still waiting. The delays start over when a subscription takes hold.
   */
  lemma RetriesMoveExactly(s: Client, e: Event)
    requires Enabled(s, e)
    ensures var given := IsNotification(e) && InUse(s, e.over) && GivesUp(s, e).Some?;
            Step(s, e).retry ==
              if given && !s.retry.pending then Policy(s.retry.attempt + 1, !s.retry.aborted, s.retry.aborted)
              else if e.Settles? && e.accepted && InUse(s, e.over) then s.retry.(attempt := 0)
              else if e.RetrySettles? then s.retry.(pending := false)
              else if e.Aborts? then Policy(s.retry.attempt, s.retry.pending && s.reopening, true)
              else s.retry
    ensures Step(s, e).reopening <==> e.RetryFires? || (s.reopening && !e.RetrySettles?)
    ensures Step(s, e).closing <==> s.closing || e.Closes?
    ensures Step(s, e).routes == if e.Starts? then (set d | d in e.devices && '+' !in d && '#' !in d) else s.routes
  {
  }

  /** An opening adds a connection that has asked for nothing and ends the one before it; nothing opens once closing. */
  lemma OpeningsReplace(s: Client, e: Event)
    requires Enabled(s, e) && NewestIsCurrent(s) && (e.Starts? || e.RetryFires?)
    ensures var t := Step(s, e);
            if e.opens && !s.closing then
              && |t.connections| == |s.connections| + 1 && t.connection == Some(|s.connections|)
              && t.connections[|s.connections|] == Connection(false, false, false, false, [])
              && (forall i :: 0 <= i < |s.connections| ==> t.connections[i] == s.connections[i].(ended := s.connections[i].ended || i == |s.connections| - 1))
            else
              t.connections == s.connections && t.connection == s.connection
  {
  }

  /** What a notification does to its own connection while that is in use; otherwise it only notes that a subscription settled. */
  lemma NotificationsMoveTheirConnection(s: Client, e: Event)
    requires Enabled(s, e) && IsNotification(e)
    ensures var t, i, was := Step(s, e), e.over, s.connections[e.over];
            && |t.connections| == |s.connections| && t.connection == s.connection
            && (forall j :: 0 <= j < |s.connections| && j != i ==> t.connections[j] == s.connections[j])
            && var asks := if e.Settles? then was.asks[e.ask := Ask(was.asks[e.ask].devices, true)] else was.asks;
               t.connections[i] ==
                 if !InUse(s, i) then was.(asks := asks)
                 else if GivesUp(s, e).Some? then was.(asks := asks, live := false, released := true, ended := was.ended || e.Settles?)
                 else if e.Settles? then was.(asks := asks, live := true)
                 else if e.Connects? then was.(established := true, asks := was.asks + [Ask(s.routes, false)])
                 else was
  {
  }

  /** Closing ends the connection in use once and raises nothing. */
  lemma ClosingEndsTheConnection(s: Client)
    requires NewestIsCurrent(s)
    ensures var t := Step(s, Closes);
            && t.closing && t.reports == s.reports && t.connection == s.connection && |t.connections| == |s.connections|
            && (s.closing ==> t == s)
            && forall i :: 0 <= i < |s.connections| ==>
                 t.connections[i] == s.connections[i].(ended := s.connections[i].ended || (!s.closing && i == |s.connections| - 1))
  {
  }

  /**
   * Nothing keeps an event from being delivered but a retry's own microtasks: outside
   * them every connection's notifications can come, a scheduled retry can fire and any
   * subscription out can settle; inside, the retry can settle.
   */
  lemma SomethingCanAlwaysCome(s: Client, i: nat, k: nat, topic: Topic, readable: bool, accepted: bool, devices: set<string>, opens: bool)
    ensures Enabled(s, Starts(devices, opens)) && Enabled(s, Closes) && Enabled(s, Aborts)
    ensures Enabled(s, RetrySettles) <==> s.reopening
    ensures Enabled(s, RetryFires(opens)) <==> s.retry.pending && !s.reopening
    ensures i < |s.connections| && !s.reopening ==>
              Enabled(s, Connects(i)) && Enabled(s, Messages(i, topic, readable)) && Enabled(s, Errors(i)) && Enabled(s, TransportCloses(i))
    ensures Enabled(s, Settles(i, k, accepted)) <==>
              !s.reopening && i < |s.connections| && k < |s.connections[i].asks| && !s.connections[i].asks[k].settled
  {
  }

  /** No event of the run gives a connection up or aborts the root signal. */
  ghost predicate Untroubled(s: Client, es: seq<Event>)
    requires Possible(s, es)
    decreases |es|
  {
    es == [] || (
      && !es[0].Aborts?
      && !(IsNotification(es[0]) && InUse(s, es[0].over) && GivesUp(s, es[0]).Some?)
      && Untroubled(Step(s, es[0]), es[1..]))
  }

  lemma {:induction false} UntroubledRunsScheduleNothing(s: Client, es: seq<Event>)
    requires Possible(s, es) && Untroubled(s, es) && s.retry == Policy(0, false, false) && !s.reopening
    ensures Run(s, es).retry == Policy(0, false, false) && !Run(s, es).reopening
    decreases |es|
  {
    if es != [] {
      RetriesMoveExactly(s, es[0]);
      UntroubledRunsScheduleNothing(Step(s, es[0]), es[1..]);
    }
  }

  /** The first connection a new client gives up schedules its first retry, after whatever untroubled run. */
  lemma TheFirstFailureSchedules(es: seq<Event>, e: Event)
    requires Possible(Created, es) && Untroubled(Created, es)
    requires var s := Run(Created, es); Enabled(s, e) && IsNotification(e) && InUse(s, e.over) && GivesUp(s, e).Some?
    ensures Step(Run(Created, es), e).retry == Policy(1, true, false)
  {
    UntroubledRunsScheduleNothing(Created, es);
    RetriesMoveExactly(Run(Created, es), e);
  }
}
