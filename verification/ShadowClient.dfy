/**
 * The shadow connection lifecycle (`src/cloud/shadow.ts`).
 *
 * One client, one current connection, and any number of superseded ones whose
 * notifications still arrive. A notification is a macrotask, so none is delivered
 * between a retry reopening the connection and that retry clearing its pending flag.
 */
module ShadowClient {
  import opened Wrappers
  import opened RetryPolicy

  datatype DisconnectReason = TransportClosed | TransportError | SubscriptionRefused | HandshakeRefused

  /** A subscription the connection asked for, and the devices whose topics it named. */
  datatype Ask = Ask(devices: set<string>, settled: bool)

  datatype Connection = Connection(established: bool, live: bool, released: bool, ended: bool, asks: seq<Ask>)

  datatype Leaf = GetAccepted | GetRejected | UpdateAccepted
  datatype Topic = Topic(deviceId: string, leaf: Leaf)

  /** What the client tells its consumer, in order, and over which connection. */
  datatype Report =
    | Connected(over: nat)
    | Disconnected(over: nat, reason: DisconnectReason)
    | Patched(over: nat, deviceId: string)

  datatype Client = Client(
    connections: seq<Connection>,
    connection: Option<nat>,
    closing: bool,
    routes: set<string>,
    retry: Policy,
    reopening: bool,
    reports: seq<Report>)

  datatype Event =
    | Starts(devices: set<string>, opens: bool)
    | Closes
    | Aborts
    | RetryFires(opens: bool)
    | RetrySettles
    | Connects(over: nat)
    | Messages(over: nat, topic: Topic, readable: bool)
    | Errors(over: nat)
    | TransportCloses(over: nat)
    | Settles(over: nat, ask: nat, accepted: bool)

  predicate IsNotification(e: Event) {
    e.Connects? || e.Messages? || e.Errors? || e.TransportCloses? || e.Settles?
  }

  predicate HasWildcard(deviceId: string) {
    '+' in deviceId || '#' in deviceId
  }

  function UsableDevices(deviceIds: set<string>): set<string> {
    set d | d in deviceIds && !HasWildcard(d)
  }

  predicate Enabled(s: Client, e: Event) {
    match e
    case Starts(_, _) => true
    case Closes => true
    case Aborts => true
    case RetryFires(_) => s.retry.pending && !s.reopening
    case RetrySettles => s.reopening
    case Settles(i, k, _) => !s.reopening && i < |s.connections| && k < |s.connections[i].asks| && !s.connections[i].asks[k].settled
    case _ => !s.reopening && e.over < |s.connections|
  }

  predicate IsCurrent(s: Client, i: nat) {
    i < |s.connections| && s.connection == Some(i) && !s.connections[i].released && !s.closing
  }

  predicate IsConnected(s: Client) {
    !s.closing && s.connection.Some? && s.connection.value < |s.connections| && s.connections[s.connection.value].live
  }

  /** The opener: nothing opens once closing, and an opening that throws leaves everything as it was. */
  function OpenConnection(s: Client, opens: bool): Client {
    if s.closing || !opens then
      s
    else
      var ended := if s.connection.Some? && s.connection.value < |s.connections| then
                     s.connections[s.connection.value := s.connections[s.connection.value].(ended := true)]
                   else s.connections;
      s.(connections := ended + [Connection(false, false, false, false, [])], connection := Some(|s.connections|))
  }

  function Release(s: Client, i: nat, reason: DisconnectReason): Client
    requires i < |s.connections|
  {
    s.(connections := s.connections[i := s.connections[i].(released := true, live := false)],
       reports := s.reports + [Disconnected(i, reason)],
       retry := Scheduled(s.retry))
  }

  function SettledAsk(s: Client, i: nat, k: nat): Client
    requires i < |s.connections| && k < |s.connections[i].asks|
  {
    var asks := s.connections[i].asks;
    s.(connections := s.connections[i := s.connections[i].(asks := asks[k := asks[k].(settled := true)])])
  }

  function Step(s: Client, e: Event): Client
    requires Enabled(s, e)
  {
    match e
    case Starts(devices, opens) => OpenConnection(s.(routes := UsableDevices(devices)), opens)
    case Closes =>
      var ended := if !s.closing && s.connection.Some? && s.connection.value < |s.connections| then
                     s.connections[s.connection.value := s.connections[s.connection.value].(ended := true)]
                   else s.connections;
      s.(closing := true, connections := ended)
    case Aborts => s.(retry := s.retry.(aborted := true, pending := s.reopening && s.retry.pending))
    case RetryFires(opens) => OpenConnection(s, opens).(reopening := true)
    case RetrySettles => s.(retry := s.retry.(pending := false), reopening := false)
    case Connects(i) =>
      if !IsCurrent(s, i) then s
      else s.(connections := s.connections[i := s.connections[i].(established := true,
                                                                  asks := s.connections[i].asks + [Ask(s.routes, false)])])
    case Messages(i, topic, readable) =>
      if !IsCurrent(s, i) || topic.deviceId !in s.routes || topic.leaf.GetRejected? || !readable then s
      else s.(reports := s.reports + [Patched(i, topic.deviceId)])
    case Errors(i) =>
      if !IsCurrent(s, i) then s else Release(s, i, TransportError)
    case TransportCloses(i) =>
      if !IsCurrent(s, i) then s
      else Release(s, i, if s.connections[i].established then TransportClosed else HandshakeRefused)
    case Settles(i, k, accepted) =>
      var settled := SettledAsk(s, i, k);
      if !IsCurrent(s, i) then settled
      else if accepted then
        settled.(connections := settled.connections[i := settled.connections[i].(live := true)],
                 reports := s.reports + [Connected(i)],
                 retry := s.retry.(attempt := 0))
      else
        var released := Release(settled, i, SubscriptionRefused);
        released.(connections := released.connections[i := released.connections[i].(ended := true)])
  }

  // ---- Safety ----

  /** A connection says it ended once, and says nothing after that. */
  ghost predicate SpeaksOnce(s: Client) {
    && (forall k :: 0 <= k < |s.reports| ==> s.reports[k].over < |s.connections|)
    && (forall k :: 0 <= k < |s.reports| && s.reports[k].Disconnected? ==> s.connections[s.reports[k].over].released)
    && (forall k, m :: 0 <= k < m < |s.reports| && s.reports[k].Disconnected? ==> s.reports[m].over != s.reports[k].over)
    && (forall i :: 0 <= i < |s.connections| && s.connections[i].released ==>
          exists k :: 0 <= k < |s.reports| && s.reports[k].Disconnected? && s.reports[k].over == i)
  }

  /** Every connection but the current one has been ended, and the current one is the newest. */
  ghost predicate NewestIsCurrent(s: Client) {
    && (s.connection.Some? ==> s.connection.value + 1 == |s.connections|)
    && (s.connection.None? ==> s.connections == [])
    && (forall i :: 0 <= i < |s.connections| - 1 ==> s.connections[i].ended)
    && (forall i :: 0 <= i < |s.connections| && s.connections[i].live ==> !s.connections[i].released)
  }

  function Newest(s: Client): Connection
    requires s.connections != []
  {
    s.connections[|s.connections| - 1]
  }

  ghost predicate Inv(s: Client) {
    SpeaksOnce(s) && NewestIsCurrent(s) && (s.reopening ==> s.retry.pending)
  }

  /** What holds as long as opening a connection never throws. */
  ghost predicate Recovers(s: Client)
    requires NewestIsCurrent(s)
  {
    && (s.reopening && !s.closing ==> s.connection.Some? && !Newest(s).released)
    && (s.connection.Some? && !s.closing && !s.retry.aborted && Newest(s).released ==> s.retry.pending)
  }

  /** The live connection subscribed to exactly the routing table in force. */
  ghost predicate Routed(s: Client)
    requires NewestIsCurrent(s)
  {
    s.connection.Some? && !s.closing ==>
      var c := Newest(s);
      && (forall k :: 0 <= k < |c.asks| ==> c.asks[k].devices == s.routes)
      && (c.live ==> exists k :: 0 <= k < |c.asks| && c.asks[k].settled)
  }

  /** A retry whose opening throws while the client has no connection it still uses. */
  predicate Strands(s: Client, e: Event) {
    e.RetryFires? && !e.opens && !s.closing && (s.connections == [] || Newest(s).released)
  }

  /** A start for other devices whose opening throws while the connection in use has already asked for the old ones. */
  predicate Misroutes(s: Client, e: Event) {
    e.Starts? && !e.opens && !s.closing && s.connections != [] && Newest(s).asks != [] && UsableDevices(e.devices) != s.routes
  }

  predicate OpensIfAsked(e: Event) {
    (e.Starts? ==> e.opens) && (e.RetryFires? ==> e.opens)
  }

  lemma SpeakingStep(s: Client, t: Client, i: nat, report: Report)
    requires SpeaksOnce(s) && i < |s.connections| && !s.connections[i].released && report.over == i
    requires t.reports == s.reports + [report] && |t.connections| == |s.connections|
    requires forall j :: 0 <= j < |t.connections| ==> (t.connections[j].released <==> s.connections[j].released || (j == i && report.Disconnected?))
    ensures SpeaksOnce(t)
  {
    forall j | 0 <= j < |t.connections| && t.connections[j].released
      ensures exists k :: 0 <= k < |t.reports| && t.reports[k].Disconnected? && t.reports[k].over == j
    {
      if s.connections[j].released {
        var k :| 0 <= k < |s.reports| && s.reports[k].Disconnected? && s.reports[k].over == j;
        assert t.reports[k] == s.reports[k];
      } else {
        assert t.reports[|s.reports|] == report;
      }
    }
  }

  lemma SilentStep(s: Client, t: Client)
    requires SpeaksOnce(s) && t.reports == s.reports && |t.connections| >= |s.connections|
    requires forall j :: 0 <= j < |s.connections| ==> (t.connections[j].released <==> s.connections[j].released)
    requires forall j :: |s.connections| <= j < |t.connections| ==> !t.connections[j].released
    ensures SpeaksOnce(t)
  {
    forall j | 0 <= j < |t.connections| && t.connections[j].released
      ensures exists k :: 0 <= k < |t.reports| && t.reports[k].Disconnected? && t.reports[k].over == j
    {
      var k :| 0 <= k < |s.reports| && s.reports[k].Disconnected? && s.reports[k].over == j;
    }
  }

  lemma StepSpeaksOnce(s: Client, e: Event)
    requires Inv(s) && Enabled(s, e)
    ensures SpeaksOnce(Step(s, e))
  {
    var t := Step(s, e);
    if t.reports == s.reports {
      SilentStep(s, t);
    } else {
      SpeakingStep(s, t, e.over, t.reports[|s.reports|]);
    }
  }

  lemma OpeningKeepsNewest(s: Client, opens: bool)
    requires NewestIsCurrent(s)
    ensures NewestIsCurrent(OpenConnection(s, opens))
  {
  }

  lemma NotificationKeepsNewest(s: Client, e: Event)
    requires NewestIsCurrent(s) && Enabled(s, e) && IsNotification(e)
    ensures NewestIsCurrent(Step(s, e))
  {
    if e.Settles? {
      assert NewestIsCurrent(SettledAsk(s, e.over, e.ask));
    }
  }

  lemma StepKeepsInv(s: Client, e: Event)
    requires Inv(s) && Enabled(s, e)
    ensures Inv(Step(s, e))
  {
    StepSpeaksOnce(s, e);
    match e
    case Starts(devices, opens) => OpeningKeepsNewest(s.(routes := UsableDevices(devices)), opens);
    case RetryFires(opens) => OpeningKeepsNewest(s, opens);
    case Closes =>
    case Aborts =>
    case RetrySettles =>
    case _ => NotificationKeepsNewest(s, e);
  }

  /** A step loses the way back exactly when it strands. */
  lemma StepRecoversExactlyWhen(s: Client, e: Event)
    requires Inv(s) && Recovers(s) && Enabled(s, e)
    ensures Inv(Step(s, e)) && (Recovers(Step(s, e)) <==> !Strands(s, e))
  {
    StepKeepsInv(s, e);
  }

  lemma SettledAsksStay(s: Client, e: Event, k: nat)
    requires Inv(s) && Enabled(s, e) && s.connections != [] && k < |Newest(s).asks| && Newest(s).asks[k].settled
    requires |Step(s, e).connections| == |s.connections|
    ensures k < |Newest(Step(s, e)).asks| && Newest(Step(s, e)).asks[k].settled
  {
  }

  /** A live connection has a settled subscription, whatever the step. */
  lemma LiveMeansSettled(s: Client, e: Event)
    requires Inv(s) && Routed(s) && Enabled(s, e) && Inv(Step(s, e))
    ensures var t := Step(s, e);
            t.connection.Some? && !t.closing && Newest(t).live ==> exists k :: 0 <= k < |Newest(t).asks| && Newest(t).asks[k].settled
  {
    var t := Step(s, e);
    if t.connection.Some? && !t.closing && Newest(t).live {
      if e.Settles? && e.accepted && e.over == t.connection.value {
        assert Newest(t).asks[e.ask].settled;
      } else {
        assert |s.connections| == |t.connections| && Newest(s).live;
        var k :| 0 <= k < |Newest(s).asks| && Newest(s).asks[k].settled;
        SettledAsksStay(s, e, k);
      }
    }
  }

  /** The connection in use has asked for the table in force, and for nothing else. */
  ghost predicate AsksMatch(s: Client)
    requires NewestIsCurrent(s)
  {
    s.connection.Some? && !s.closing ==> forall k :: 0 <= k < |Newest(s).asks| ==> Newest(s).asks[k].devices == s.routes
  }

  lemma StartsAsk(s: Client, devices: set<string>, opens: bool)
    requires NewestIsCurrent(s) && AsksMatch(s)
    ensures var t := Step(s, Starts(devices, opens));
            NewestIsCurrent(t) && (AsksMatch(t) <==> !Misroutes(s, Starts(devices, opens)))
  {
    OpeningKeepsNewest(s.(routes := UsableDevices(devices)), opens);
    if Misroutes(s, Starts(devices, opens)) {
      assert Newest(Step(s, Starts(devices, opens))).asks[0].devices == s.routes;
    }
  }

  lemma OthersAskAlike(s: Client, e: Event)
    requires Inv(s) && AsksMatch(s) && Enabled(s, e) && !e.Starts? && NewestIsCurrent(Step(s, e))
    ensures AsksMatch(Step(s, e))
  {
    var t := Step(s, e);
    if t.connection.Some? && !t.closing {
      forall k | 0 <= k < |Newest(t).asks|
        ensures Newest(t).asks[k].devices == t.routes
      {
        assert k < |Newest(s).asks| ==> Newest(s).asks[k].devices == s.routes;
      }
    }
  }

  /** A step leaves a subscription for other devices than the table in force exactly when it misroutes. */
  lemma StepRoutesExactlyWhen(s: Client, e: Event)
    requires Inv(s) && Routed(s) && Enabled(s, e)
    ensures Inv(Step(s, e)) && (Routed(Step(s, e)) <==> !Misroutes(s, e))
  {
    StepKeepsInv(s, e);
    LiveMeansSettled(s, e);
    match e
    case Starts(devices, opens) => StartsAsk(s, devices, opens);
    case _ => OthersAskAlike(s, e);
  }

  const Created := Client([], None, false, {}, Policy(0, false, false), false, [])

  ghost predicate Possible(s: Client, es: seq<Event>)
    decreases |es|
  {
    es == [] || (Enabled(s, es[0]) && Possible(Step(s, es[0]), es[1..]))
  }

  ghost function Run(s: Client, es: seq<Event>): Client
    requires Possible(s, es)
    decreases |es|
  {
    if es == [] then s else Run(Step(s, es[0]), es[1..])
  }

  lemma {:induction false} RunKeepsInv(s: Client, es: seq<Event>)
    requires Inv(s) && Possible(s, es)
    ensures Inv(Run(s, es))
    decreases |es|
  {
    if es != [] {
      StepKeepsInv(s, es[0]);
      RunKeepsInv(Step(s, es[0]), es[1..]);
    }
  }

  ghost predicate NeverStrands(s: Client, es: seq<Event>)
    requires Possible(s, es)
    decreases |es|
  {
    es == [] || (!Strands(s, es[0]) && NeverStrands(Step(s, es[0]), es[1..]))
  }

  ghost predicate NeverMisroutes(s: Client, es: seq<Event>)
    requires Possible(s, es)
    decreases |es|
  {
    es == [] || (!Misroutes(s, es[0]) && NeverMisroutes(Step(s, es[0]), es[1..]))
  }

  /** At every point of the run the client has a connection it still uses or a retry on its way. */
  ghost predicate AlwaysRecovers(s: Client, es: seq<Event>)
    requires Inv(s) && Possible(s, es)
    decreases |es|
  {
    Recovers(s) && (es == [] || (StepKeepsInv(s, es[0]); AlwaysRecovers(Step(s, es[0]), es[1..])))
  }

  /** At every point of the run the connection in use asked for exactly the table in force. */
  ghost predicate AlwaysRouted(s: Client, es: seq<Event>)
    requires Inv(s) && Possible(s, es)
    decreases |es|
  {
    Routed(s) && (es == [] || (StepKeepsInv(s, es[0]); AlwaysRouted(Step(s, es[0]), es[1..])))
  }

  /** A run keeps the way back throughout if and only if none of its steps strands. */
  lemma {:induction false} RunRecoversExactlyWhen(s: Client, es: seq<Event>)
    requires Inv(s) && Recovers(s) && Possible(s, es)
    ensures AlwaysRecovers(s, es) <==> NeverStrands(s, es)
    ensures NeverStrands(s, es) ==> Inv(Run(s, es)) && Recovers(Run(s, es))
    decreases |es|
  {
    if es != [] {
      StepRecoversExactlyWhen(s, es[0]);
      if !Strands(s, es[0]) {
        RunRecoversExactlyWhen(Step(s, es[0]), es[1..]);
      }
    }
  }

  /** A run keeps its subscriptions to the table in force throughout if and only if none of its steps misroutes. */
  lemma {:induction false} RunRoutesExactlyWhen(s: Client, es: seq<Event>)
    requires Inv(s) && Routed(s) && Possible(s, es)
    ensures AlwaysRouted(s, es) <==> NeverMisroutes(s, es)
    ensures NeverMisroutes(s, es) ==> Inv(Run(s, es)) && Routed(Run(s, es))
    decreases |es|
  {
    if es != [] {
      StepRoutesExactlyWhen(s, es[0]);
      if !Misroutes(s, es[0]) {
        RunRoutesExactlyWhen(Step(s, es[0]), es[1..]);
      }
    }
  }

  lemma {:induction false} OpeningNeitherStrandsNorMisroutes(s: Client, es: seq<Event>)
    requires Possible(s, es) && forall k :: 0 <= k < |es| ==> OpensIfAsked(es[k])
    ensures NeverStrands(s, es) && NeverMisroutes(s, es)
    decreases |es|
  {
    if es != [] {
      assert OpensIfAsked(es[0]);
      OpeningNeitherStrandsNorMisroutes(Step(s, es[0]), es[1..]);
    }
  }

  /** Every connection reports at most one disconnection, and nothing after it. */
  lemma OneReportPerConnection(es: seq<Event>)
    requires Possible(Created, es)
    ensures var reports := Run(Created, es).reports;
            forall k, m :: 0 <= k < m < |reports| && reports[k].Disconnected? ==> reports[m].over != reports[k].over
  {
    RunKeepsInv(Created, es);
  }

  /**
   * A started client that is neither closed nor aborted has an unreleased current
   * connection or a retry on its way as long as no retry's opening threw with nothing
   * in use; and it calls itself connected only while the live connection is subscribed
   * to exactly the routing table in force, as long as no start's opening threw over a
   * subscription for other devices.
   */
  lemma StuckOrMisroutedOnlyByThrows(es: seq<Event>)
    requires Possible(Created, es)
    ensures var s := Run(Created, es);
            && (s.connection.Some? ==> s.connection == Some(|s.connections| - 1) && s.connections != [])
            && (NeverStrands(Created, es) && s.connection.Some? && !s.closing && !s.retry.aborted ==> !Newest(s).released || s.retry.pending)
            && (NeverMisroutes(Created, es) && IsConnected(s) ==> !Newest(s).released && Ask(s.routes, true) in Newest(s).asks)
  {
    RunKeepsInv(Created, es);
    RunRecoversExactlyWhen(Created, es);
    RunRoutesExactlyWhen(Created, es);
    var s := Run(Created, es);
    if NeverMisroutes(Created, es) && IsConnected(s) {
      var k :| 0 <= k < |Newest(s).asks| && Newest(s).asks[k].settled;
      assert Newest(s).asks[k] == Ask(s.routes, true);
    }
  }

  /** In particular neither happens while opening never throws. */
  lemma NeverStuck(es: seq<Event>)
    requires Possible(Created, es) && forall k :: 0 <= k < |es| ==> OpensIfAsked(es[k])
    ensures var s := Run(Created, es);
            && (s.connection.Some? ==> s.connection == Some(|s.connections| - 1) && s.connections != [])
            && (s.connection.Some? && !s.closing && !s.retry.aborted ==> !Newest(s).released || s.retry.pending)
            && (IsConnected(s) ==> !Newest(s).released && Ask(s.routes, true) in Newest(s).asks)
  {
    OpeningNeitherStrandsNorMisroutes(Created, es);
    StuckOrMisroutedOnlyByThrows(es);
  }

  /** A start of any device list leaves a current connection, so the guarantees above are not empty. */
  lemma StartingOpens(s: Client, devices: set<string>)
    requires Inv(s) && !s.closing
    ensures var t := Step(s, Starts(devices, true));
            t.connection == Some(|s.connections|) && IsCurrent(t, |s.connections|)
            && t.routes == UsableDevices(devices)
  {
  }

  /** A notification from a connection the client has replaced, released or closed moves nothing but its own bookkeeping. */
  lemma LateCallbacksChangeNothing(s: Client, e: Event)
    requires Enabled(s, e) && IsNotification(e) && !IsCurrent(s, e.over)
    ensures var t := Step(s, e);
            && t.(connections := s.connections) == s
            && |t.connections| == |s.connections|
            && forall i :: 0 <= i < |s.connections| ==> t.connections[i].(asks := s.connections[i].asks) == s.connections[i]
  {
  }

  lemma RunOfOne(s: Client, e: Event)
    requires Enabled(s, e)
    ensures Possible(s, [e]) && Run(s, [e]) == Step(s, e)
  {
    assert [e][1..] == [];
  }

  lemma RunOfMore(s: Client, e: Event, rest: seq<Event>)
    requires Enabled(s, e) && Possible(Step(s, e), rest)
    ensures Possible(s, [e] + rest) && Run(s, [e] + rest) == Run(Step(s, e), rest)
  {
    assert ([e] + rest)[1..] == rest;
  }

  lemma RunOfFour(es: seq<Event>, s1: Client, s2: Client, s3: Client)
    requires |es| == 4
    requires Enabled(Created, es[0]) && s1 == Step(Created, es[0])
    requires Enabled(s1, es[1]) && s2 == Step(s1, es[1])
    requires Enabled(s2, es[2]) && s3 == Step(s2, es[2])
    requires Enabled(s3, es[3])
    ensures Possible(Created, es) && Run(Created, es) == Step(s3, es[3])
  {
    RunOfOne(s3, es[3]);
    RunOfMore(s2, es[2], [es[3]]);
    RunOfMore(s1, es[1], [es[2]] + [es[3]]);
    RunOfMore(Created, es[0], [es[1]] + ([es[2]] + [es[3]]));
    assert es == [es[0]] + ([es[1]] + ([es[2]] + [es[3]]));
  }

  /** An opening that throws from a retry leaves a released connection with nothing pending: the condition is needed. */
  lemma AThrowingRetryStrands() returns (es: seq<Event>)
    ensures Possible(Created, es)
    ensures var s := Run(Created, es);
            s.connections != [] && s.connection == Some(|s.connections| - 1) && Newest(s).released
            && !s.retry.pending && !s.closing && !s.retry.aborted
  {
    es := [Starts({}, true), Errors(0), RetryFires(false), RetrySettles];
    var s1 := Step(Created, es[0]);
    var s2 := Step(s1, es[1]);
    var s3 := Step(s2, es[2]);
    RunOfFour(es, s1, s2, s3);
  }

  /** A restart of the client for other devices that throws keeps a live connection subscribed to the old ones. */
  lemma AThrowingStartMisroutes(d: string, other: string) returns (es: seq<Event>)
    requires d != other && !HasWildcard(d) && !HasWildcard(other)
    ensures Possible(Created, es)
    ensures var s := Run(Created, es);
            IsConnected(s) && s.routes == {other}
            && forall ask :: ask in s.connections[s.connection.value].asks ==> ask.devices == {d}
  {
    es := [Starts({d}, true), Connects(0), Settles(0, 0, true), Starts({other}, false)];
    var s1 := Step(Created, es[0]);
    assert s1.routes == {d};
    var s2 := Step(s1, es[1]);
    var s3 := Step(s2, es[2]);
    var s4 := Step(s3, es[3]);
    assert s4.routes == {other};
    RunOfFour(es, s1, s2, s3);
  }

  /** The client itself: closure variables that every callback updates in place. */
  class Shadow {
    var connections: seq<Connection>
    var connection: Option<nat>
    var closing: bool
    var routes: set<string>
    var retry: Policy
    var reopening: bool
    var reports: seq<Report>

    function Held(): Client
      reads this
    {
      Client(connections, connection, closing, routes, retry, reopening, reports)
    }

    predicate Current(i: nat)
      reads this
    {
      i < |connections| && connection == Some(i) && !connections[i].released && !closing
    }

    constructor ()
      ensures Held() == Created
    {
      connections, connection, closing, routes := [], None, false, {};
      retry, reopening, reports := Policy(0, false, false), false, [];
    }

    /** `opens` is false when reading the credentials or building the transport throws. */
    method Open(opens: bool)
      modifies this
      ensures Held() == OpenConnection(old(Held()), opens)
    {
      if closing || !opens {
        return;
      }
      var previous := connection;
      connection := Some(|connections|);
      connections := connections + [Connection(false, false, false, false, [])];
      if previous.Some? && previous.value < |connections| - 1 {
        connections := connections[previous.value := connections[previous.value].(ended := true)];
        assert connections == old(connections)[previous.value := connections[previous.value]] + [Connection(false, false, false, false, [])];
      }
    }

    method Start(devices: set<string>, opens: bool)
      modifies this
      ensures Held() == Step(old(Held()), Starts(devices, opens))
    {
      routes := UsableDevices(devices);
      Open(opens);
    }

    method Close()
      modifies this
      ensures Held() == Step(old(Held()), Closes)
    {
      if !closing && connection.Some? && connection.value < |connections| {
        connections := connections[connection.value := connections[connection.value].(ended := true)];
      }
      closing := true;
    }

    method Give(i: nat, reason: DisconnectReason)
      requires i < |connections|
      modifies this
      ensures Held() == Release(old(Held()), i, reason)
    {
      connections := connections[i := connections[i].(released := true, live := false)];
      reports := reports + [Disconnected(i, reason)];
      if !retry.pending {
        retry := Policy(retry.attempt + 1, !retry.aborted, retry.aborted);
      }
    }

    method HandleConnect(i: nat)
      requires Enabled(Held(), Connects(i))
      modifies this
      ensures Held() == Step(old(Held()), Connects(i))
    {
      if Current(i) {
        connections := connections[i := connections[i].(established := true)];
        connections := connections[i := connections[i].(asks := connections[i].asks + [Ask(routes, false)])];
      }
    }

    method HandleMessage(i: nat, topic: Topic, readable: bool)
      requires Enabled(Held(), Messages(i, topic, readable))
      modifies this
      ensures Held() == Step(old(Held()), Messages(i, topic, readable))
    {
      if Current(i) && topic.deviceId in routes && !topic.leaf.GetRejected? && readable {
        reports := reports + [Patched(i, topic.deviceId)];
      }
    }

    method HandleError(i: nat)
      requires Enabled(Held(), Errors(i))
      modifies this
      ensures Held() == Step(old(Held()), Errors(i))
    {
      if Current(i) {
        Give(i, TransportError);
      }
    }

    method HandleClose(i: nat)
      requires Enabled(Held(), TransportCloses(i))
      modifies this
      ensures Held() == Step(old(Held()), TransportCloses(i))
    {
      if Current(i) {
        Give(i, if connections[i].established then TransportClosed else HandshakeRefused);
      }
    }

    /** The rest of `requestEveryShadow`, once its awaits have settled. */
    method SubscriptionSettled(i: nat, k: nat, accepted: bool)
      requires Enabled(Held(), Settles(i, k, accepted))
      modifies this
      ensures Held() == Step(old(Held()), Settles(i, k, accepted))
    {
      var current, asks := Current(i), connections[i].asks;
      connections := connections[i := connections[i].(asks := asks[k := asks[k].(settled := true)])];
      if !current {
        return;
      }
      if accepted {
        connections := connections[i := connections[i].(live := true)];
        retry := retry.(attempt := 0);
        reports := reports + [Connected(i)];
      } else {
        Give(i, SubscriptionRefused);
        connections := connections[i := connections[i].(ended := true)];
      }
    }

    method RetryFired(opens: bool)
      requires Enabled(Held(), RetryFires(opens))
      modifies this
      ensures Held() == Step(old(Held()), RetryFires(opens))
    {
      Open(opens);
      reopening := true;
    }

    method RetrySettled()
      requires Enabled(Held(), RetrySettles)
      modifies this
      ensures Held() == Step(old(Held()), RetrySettles)
    {
      reopening := false;
      retry := retry.(pending := false);
    }

    /** The root signal is aborted: a retry still waiting ends there, and none waits again. */
    method RootAborted()
      modifies this
      ensures Held() == Step(old(Held()), Aborts)
    {
      retry := Policy(retry.attempt, reopening && retry.pending, true);
    }
  }
}
