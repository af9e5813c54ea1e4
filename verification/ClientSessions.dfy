/** Sessions: invalidating or stopping discards the notifications of the session
    before it, but for one: the `closed` that a request timeout enqueues under the
    token captured when the request was sent. */
module ClientSessions {
  import opened Common
  import opened NotificationScope
  import opened Requests
  import opened ClientModel
  import opened ClientProofs
  import opened ClientOrder
  import opened ClientTheorems

  /** Some note, a failure included, was told outside the session it comes from. */
  predicate ToldAcrossSessions(log: seq<Entry>) {
    exists entry :: entry in log && entry.token != entry.note.Origin()
  }

  /** Only `closed` ever crosses, and only forwards. */
  lemma OnlyClosedCrosses(events: seq<Event>, invalidate: bool, j: nat)
    requires j < |Run(InitialClient, events, invalidate).core.log|
    ensures var entry := Run(InitialClient, events, invalidate).core.log[j];
            entry.token != entry.note.Origin() ==> entry.note.Closed? && entry.note.Origin() < entry.token
  {
    hide Run;
    ReachableClientInvariant(events, invalidate);
    assert EntrySound(Run(InitialClient, events, invalidate), j);
  }

  /** The guard: this step does not send a request on a connection whose session is over. */
  predicate SendsInSession(s: Client, e: Event) {
    e.RunIo? && s.io != [] && s.io[0].SendRequestTask? && s.core.session.peer.Some? ==>
      s.core.session.peer.value.token == s.core.scope.generation
  }

  predicate RunSendsInSession(s: Client, events: seq<Event>, invalidate: bool)
    decreases |events|
  {
    events == []
    || (SendsInSession(s, events[0]) && RunSendsInSession(Step(s, events[0], invalidate), events[1..], invalidate))
  }

  /** No note is queued or told across sessions, and no pending request could cause one. */
  ghost predicate InSession(s: Client) {
    && (forall id :: id in s.core.requests.pending && id in s.core.captured && s.core.session.peer.Some? ==>
          s.core.captured[id] == s.core.session.peer.value.token)
    && (forall task :: task in s.dispatcher ==> QueuedInSession(task))
    && !ToldAcrossSessions(s.core.log)
  }

  predicate QueuedInSession(task: DispatcherTask) {
    task.Notify? && task.notification.Deliver? ==> task.token == task.notification.note.Origin()
  }

  lemma DispatcherKeepsInSession(s: Client, verified: bool, invalidate: bool)
    requires InSession(s) && s.dispatcher != []
    ensures InSession(Step(s, RunDispatcher(verified), invalidate))
  {
    hide RunDispatcherTask;
    StepQueues(s, RunDispatcher(verified), invalidate);
    DispatcherEffectTells(s.core, s.dispatcher[0], verified);
    DispatcherEffectLog(s.core, s.dispatcher[0], verified);
    assert QueuedInSession(s.dispatcher[0]);
  }

  lemma IoEffectCaptures(c: Core, task: IoTask, endpointOk: bool)
    requires SessionSound(c) && RequestsOnPeer(c)
    requires task.SendRequestTask? && c.session.peer.Some? ==> c.session.peer.value.token == c.scope.generation
    ensures var f := RunIoTask(c, task, endpointOk);
            && (forall id :: id in f.core.requests.pending && id in f.core.captured && f.core.session.peer.Some? ==>
                  || f.core.captured[id] == f.core.session.peer.value.token
                  || (id in c.requests.pending && id in c.captured && f.core.captured[id] == c.captured[id]
                      && f.core.session.peer == c.session.peer))
            && (forall t :: t in f.enqueued ==> QueuedInSession(t))
  {
    hide Conserved, CalledBack, Failures;
  }

  lemma IoKeepsInSession(s: Client, endpointOk: bool, invalidate: bool)
    requires InSession(s) && SessionSound(s.core) && RequestsOnPeer(s.core) && CoreHandlesKnown(s.core)
    requires s.io != [] && SendsInSession(s, RunIo(endpointOk))
    ensures InSession(Step(s, RunIo(endpointOk), invalidate))
  {
    hide RunIoTask, SessionSound, RequestsOnPeer;
    StepQueues(s, RunIo(endpointOk), invalidate);
    IoEffectCaptures(s.core, s.io[0], endpointOk);
    IoEffectTells(s.core, s.io[0], endpointOk);
  }

  lemma EventEffectCaptures(c: Core, e: Event, invalidate: bool)
    requires RequestsOnPeer(c)
    requires e.RequestTimerRuns? && e.id in c.requests.pending ==> c.captured[e.id] == c.session.peer.value.token
    ensures var f := Happens(c, e, invalidate);
            && f.core.captured == c.captured && f.core.log == c.log
            && (forall id :: id in f.core.requests.pending ==> id in c.requests.pending)
            && Kept(c.session.peer, f.core.session.peer)
            && (forall t :: t in f.enqueued ==> QueuedInSession(t))
  {
    hide Conserved, CalledBack, Failures;
  }

  lemma EventKeepsInSession(s: Client, e: Event, invalidate: bool)
    requires InSession(s) && RequestsOnPeer(s.core) && Enabled(s, e) && !e.RunDispatcher? && !e.RunIo?
    ensures InSession(Step(s, e, invalidate))
  {
    hide Happens;
    StepQueues(s, e, invalidate);
    EventEffectCaptures(s.core, e, invalidate);
  }

  lemma StepKeepsInSession(s: Client, e: Event, invalidate: bool)
    requires ClientInvariant(s) && InSession(s) && SendsInSession(s, e)
    ensures InSession(Step(s, e, invalidate))
  {
    hide SessionSound, TokensSound, PeersSound, CleanupsInOrder, RequestsOnPeer, InSession, Step;
    if Enabled(s, e) {
      match e
      case RunDispatcher(verified) => DispatcherKeepsInSession(s, verified, invalidate);
      case RunIo(endpointOk) => IoKeepsInSession(s, endpointOk, invalidate);
      case _ => EventKeepsInSession(s, e, invalidate);
    } else {
      DisabledStutters(s, e, invalidate);
    }
  }

  lemma {:induction false} GuardedRunKeepsInSession(s: Client, events: seq<Event>, invalidate: bool)
    requires ClientInvariant(s) && InSession(s) && RunSendsInSession(s, events, invalidate)
    ensures InSession(Run(s, events, invalidate))
    decreases |events|
  {
    hide ClientInvariant, InSession, Step, SendsInSession;
    if events != [] {
      StepKeepsInSession(s, events[0], invalidate);
      StepKeepsClientInvariant(s, events[0], invalidate);
      GuardedRunKeepsInSession(Step(s, events[0], invalidate), events[1..], invalidate);
    }
  }

  /** If every request goes out while its connection's session is current, no
      note is ever told across sessions. */
  lemma GuardedRunsStayInSession(events: seq<Event>, invalidate: bool)
    requires RunSendsInSession(InitialClient, events, invalidate)
    ensures !ToldAcrossSessions(Run(InitialClient, events, invalidate).core.log)
  {
    hide Run;
    InitialClientInvariant();
    GuardedRunKeepsInSession(InitialClient, events, invalidate);
  }

  // ------------------------------------------------------- without the option

  ghost predicate Uncrossed(s: Client) {
    (forall task :: task in s.dispatcher ==> QueuedInSession(task)) && !ToldAcrossSessions(s.core.log)
  }

  lemma IoEffectQueues(c: Core, task: IoTask, endpointOk: bool)
    ensures var f := RunIoTask(c, task, endpointOk);
            f.core.log == c.log && forall t :: t in f.enqueued ==> QueuedInSession(t)
  {
    hide CompleteAll, Complete, Add;
  }

  lemma EventEffectQueues(c: Core, e: Event)
    ensures var f := Happens(c, e, false);
            f.core.log == c.log && forall t :: t in f.enqueued ==> QueuedInSession(t)
  {
    hide CompleteAll, TimerRuns, TimesOut;
  }

  lemma StepKeepsUncrossed(s: Client, e: Event)
    requires Uncrossed(s) && Enabled(s, e)
    ensures Uncrossed(Step(s, e, false))
  {
    hide RunDispatcherTask, RunIoTask, Happens;
    StepQueues(s, e, false);
    match e
    case RunDispatcher(verified) =>
      DispatcherEffectTells(s.core, s.dispatcher[0], verified);
      DispatcherEffectLog(s.core, s.dispatcher[0], verified);
      assert QueuedInSession(s.dispatcher[0]);
    case RunIo(endpointOk) => IoEffectQueues(s.core, s.io[0], endpointOk);
    case _ => EventEffectQueues(s.core, e);
  }

  /** Unless request timeouts may close the connection, the promise is kept by every run,
      whenever its requests are sent. */
  lemma {:induction false} NothingCrossesWithoutOption(s: Client, events: seq<Event>)
    requires Uncrossed(s)
    ensures Uncrossed(Run(s, events, false))
    decreases |events|
  {
    hide Step, Uncrossed;
    if events != [] {
      if Enabled(s, events[0]) {
        StepKeepsUncrossed(s, events[0]);
      } else {
        DisabledStutters(s, events[0], false);
      }
      NothingCrossesWithoutOption(Step(s, events[0], false), events[1..]);
    }
  }

  // -------------------------------------------------- the guard is also needed

  predicate EndsSession(task: DispatcherTask) {
    task.UserStop? || task.UserInvalidate?
  }

  function Drain(n: nat): seq<Event> {
    if n == 0 then [] else [RunDispatcher(true)] + Drain(n - 1)
  }

  lemma OtherTasksKeepScope(c: Core, task: DispatcherTask)
    requires !EndsSession(task) && c.scope.running
    ensures RunDispatcherTask(c, task, true).core.scope == c.scope
  {
  }

  /** Running the tasks before the n-th brings it to the head, in the same session. */
  lemma {:induction false} DrainReaches(s: Client, n: nat, invalidate: bool)
    requires n < |s.dispatcher| && s.core.scope.running
    requires forall i :: 0 <= i < n ==> !EndsSession(s.dispatcher[i])
    ensures var t := Run(s, Drain(n), invalidate);
            t.core.scope == s.core.scope && t.dispatcher != [] && t.dispatcher[0] == s.dispatcher[n]
    decreases n
  {
    hide RunDispatcherTask;
    if n > 0 {
      var t := Step(s, RunDispatcher(true), invalidate);
      OtherTasksKeepScope(s.core, s.dispatcher[0]);
      assert forall i :: 0 <= i < |s.dispatcher| - 1 ==> t.dispatcher[i] == s.dispatcher[i + 1];
      DrainReaches(t, n - 1, invalidate);
      assert Drain(n)[1..] == Drain(n - 1);
    }
  }

  /** The events that let a request, about to be sent from `s`, cross sessions. */
  function Crossing(s: Client): seq<Event> {
    [RunIo(true), RequestTimerRuns(s.core.requests.nextId + 1, true)] + Drain(|s.dispatcher|) + [RunDispatcher(true)]
  }

  lemma SentAndTimedOut(s: Client, p: Handle)
    requires SessionSound(s.core) && s.io != [] && s.io[0].SendRequestTask? && s.core.session.peer == Some(p)
    ensures var t := Run(s, [RunIo(true), RequestTimerRuns(s.core.requests.nextId + 1, true)], true);
            && t.core.scope == s.core.scope && t.core.log == s.core.log
            && t.dispatcher == s.dispatcher + [Notify(s.core.scope.generation, Deliver(Closed(p)))]
  {
    var id := s.core.requests.nextId + 1;
    var sent := Step(s, RunIo(true), true);
    assert sent.core.session == s.core.session && sent.core.scope == s.core.scope && sent.core.log == s.core.log;
    assert sent.dispatcher == s.dispatcher;
    assert id in sent.core.requests.pending && id in sent.core.requests.timers;
    assert sent.core.captured[id] == s.core.scope.generation;
    RunTwo(s, RunIo(true), RequestTimerRuns(id, true), true);
    TimedOutClose(sent, id, p);
  }

  lemma TimedOutClose(s: Client, id: RequestId, p: Handle)
    requires id in s.core.requests.pending && id in s.core.requests.timers && id in s.core.captured
    requires s.core.session.peer == Some(p)
    ensures var t := Step(s, RequestTimerRuns(id, true), true);
            && t.core.scope == s.core.scope && t.core.log == s.core.log
            && t.dispatcher == s.dispatcher + [Notify(s.core.captured[id], Deliver(Closed(p)))]
  {
    hide CompleteAll;
    assert Enabled(s, RequestTimerRuns(id, true)) && TimesOut(s.core.requests, id, true);
  }

  lemma ClosedDelivered(s: Client, p: Handle)
    requires s.dispatcher != [] && s.dispatcher[0] == Notify(s.core.scope.generation, Deliver(Closed(p)))
    requires s.core.scope.running && p.token != s.core.scope.generation
    ensures ToldAcrossSessions(Step(s, RunDispatcher(true), true).core.log)
  {
    var t := Step(s, RunDispatcher(true), true);
    var entry := Entry(Closed(p), s.core.scope.generation);
    assert t.core.log == s.core.log + [entry];
    assert entry in t.core.log && entry.note.Origin() == p.token;
  }

  /** First for a running client with no stop or invalidation queued. */
  lemma SendCrossesFromRunning(s: Client, p: Handle)
    requires ClientInvariant(s) && s.core.scope.running
    requires s.io != [] && s.io[0].SendRequestTask? && s.core.session.peer == Some(p)
    requires p.token != s.core.scope.generation
    requires forall i :: 0 <= i < |s.dispatcher| ==> !EndsSession(s.dispatcher[i])
    ensures ToldAcrossSessions(Run(s, Crossing(s), true).core.log)
  {
    hide Run, Step, TokensSound, HandlesKnown, PeersSound, CleanupsInOrder, RequestsOnPeer, OrderInvariant;
    var n := |s.dispatcher|;
    var first := [RunIo(true), RequestTimerRuns(s.core.requests.nextId + 1, true)];
    SentAndTimedOut(s, p);
    var sent := Run(s, first, true);
    DrainReaches(sent, n, true);
    RunSplit(s, first, Drain(n), true);
    var drained := Run(sent, Drain(n), true);
    RunSplit(s, first + Drain(n), [RunDispatcher(true)], true);
    RunOne(drained, RunDispatcher(true), true);
    ClosedDelivered(drained, p);
  }

  /** Running the first `n` tasks leaves the I/O queue's head and the session's connection
      alone, and enqueues nothing that ends or starts a session. */
  lemma {:induction false} DrainLeaves(s: Client, n: nat, invalidate: bool)
    requires n <= |s.dispatcher|
    requires forall i :: n <= i < |s.dispatcher| ==> !EndsSession(s.dispatcher[i])
    ensures var t := Run(s, Drain(n), invalidate);
            && (forall i :: 0 <= i < |t.dispatcher| ==> !EndsSession(t.dispatcher[i]))
            && s.io <= t.io && t.core.session == s.core.session
            && s.core.scope.generation <= t.core.scope.generation
    decreases n
  {
    hide RunDispatcherTask;
    if n > 0 {
      var t := Step(s, RunDispatcher(true), invalidate);
      DispatcherEffectEnds(s.core, s.dispatcher[0]);
      DispatcherEffectLog(s.core, s.dispatcher[0], true);
      assert forall i :: n - 1 <= i < |s.dispatcher| - 1 ==> t.dispatcher[i] == s.dispatcher[i + 1];
      DrainLeaves(t, n - 1, invalidate);
      assert Drain(n)[1..] == Drain(n - 1);
    }
  }

  lemma DispatcherEffectEnds(c: Core, task: DispatcherTask)
    ensures var f := RunDispatcherTask(c, task, true);
            && (forall i :: 0 <= i < |f.enqueued| ==> !EndsSession(f.enqueued[i]))
            && c.scope.generation <= f.core.scope.generation
            && (!EndsSession(task) && (c.scope.running || task.UserStart?) ==> f.core.scope.running)
  {
  }

  /** A start among the first `n` tasks, and no end of a session, leaves the client running. */
  lemma {:induction false} DrainStarts(s: Client, n: nat, invalidate: bool)
    requires n <= |s.dispatcher| && forall i :: 0 <= i < |s.dispatcher| ==> !EndsSession(s.dispatcher[i])
    requires s.core.scope.running || exists i :: 0 <= i < n && s.dispatcher[i] == UserStart
    ensures Run(s, Drain(n), invalidate).core.scope.running
    decreases n
  {
    hide RunDispatcherTask;
    if n > 0 {
      var t := Step(s, RunDispatcher(true), invalidate);
      DispatcherEffectEnds(s.core, s.dispatcher[0]);
      assert forall i :: 0 <= i < |s.dispatcher| - 1 ==> t.dispatcher[i] == s.dispatcher[i + 1];
      if !t.core.scope.running {
        var i :| 0 <= i < n && s.dispatcher[i] == UserStart;
        assert t.dispatcher[i - 1] == UserStart;
      }
      DrainStarts(t, n - 1, invalidate);
      assert Drain(n)[1..] == Drain(n - 1);
    }
  }

  /** What brings any client to a running one with no session's end queued. */
  function Restart(s: Client): seq<Event> {
    var drained := Run(s, Drain(|s.dispatcher|), true);
    Drain(|s.dispatcher|) + [CallStart] + Drain(|drained.dispatcher| + 1)
  }

  lemma RestartReaches(s: Client)
    ensures var t := Run(s, Restart(s), true);
            && t.core.scope.running && (forall i :: 0 <= i < |t.dispatcher| ==> !EndsSession(t.dispatcher[i]))
            && s.io <= t.io && t.core.session == s.core.session
            && s.core.scope.generation <= t.core.scope.generation
  {
    hide Run, Step;
    var first := Drain(|s.dispatcher|);
    var drained := Run(s, first, true);
    var n := |drained.dispatcher| + 1;
    DrainLeaves(s, |s.dispatcher|, true);
    RunSplit(s, first, [CallStart], true);
    RunOne(drained, CallStart, true);
    var called := Step(drained, CallStart, true);
    StartCalled(drained);
    RunSplit(s, first + [CallStart], Drain(n), true);
    assert called.dispatcher[n - 1] == UserStart;
    DrainLeaves(called, n, true);
    DrainStarts(called, n, true);
  }

  lemma StartCalled(s: Client)
    ensures Step(s, CallStart, true) == s.(dispatcher := s.dispatcher + [UserStart])
  {
    assert s.io + [] == s.io;
  }

  /** Whenever a client is about to send a request on a connection whose session is over,
      whether it runs or not and whatever is queued, some continuation tells `closed` for
      that connection in a later session. */
  lemma UnguardedSendCrosses(s: Client, p: Handle)
    requires ClientInvariant(s) && AboutToCross(s, p)
    ensures exists more :: ToldAcrossSessions(Run(s, more, true).core.log)
  {
    hide Run, Step, ClientInvariant;
    var t := Run(s, Restart(s), true);
    RestartReaches(s);
    EveryRunKeepsClientInvariant(s, Restart(s), true);
    TokenOver(s, p);
    SendCrossesFromRunning(t, p);
    RunSplit(s, Restart(s), Crossing(t), true);
    assert ToldAcrossSessions(Run(s, Restart(s) + Crossing(t), true).core.log);
  }

  /** The next I/O task sends a request on a connection of an earlier session. */
  predicate AboutToCross(s: Client, p: Handle) {
    && s.io != [] && s.io[0].SendRequestTask?
    && s.core.session.peer == Some(p) && p.token != s.core.scope.generation
  }

  lemma TokenOver(s: Client, p: Handle)
    requires ClientInvariant(s) && AboutToCross(s, p)
    ensures p.token < s.core.scope.generation
  {
    hide TokensSound, HandlesKnown, PeersSound, CleanupsInOrder, RequestsOnPeer, OrderInvariant, FailuresInSession;
  }

  /** Exactly: from a reachable state about to send such a request, the promise can still
      be broken if and only if request timeouts may close the connection. */
  lemma CrossesExactlyWithOption(events: seq<Event>, invalidate: bool, p: Handle)
    requires AboutToCross(Run(InitialClient, events, invalidate), p)
    ensures (exists more :: ToldAcrossSessions(Run(InitialClient, events + more, invalidate).core.log)) <==> invalidate
  {
    hide Run, Step, ClientInvariant, AboutToCross, ToldAcrossSessions;
    var s := Run(InitialClient, events, invalidate);
    if invalidate {
      ReachableClientInvariant(events, true);
      UnguardedSendCrosses(s, p);
      var more :| ToldAcrossSessions(Run(s, more, true).core.log);
      RunSplit(InitialClient, events, more, true);
    } else {
      forall more
        ensures !ToldAcrossSessions(Run(InitialClient, events + more, invalidate).core.log)
      {
        NothingToldAcross(events + more);
      }
    }
  }

  lemma NothingToldAcross(events: seq<Event>)
    ensures !ToldAcrossSessions(Run(InitialClient, events, false).core.log)
  {
    hide Run;
    NothingCrossesWithoutOption(InitialClient, events);
  }

  const SocketMade := Handle(0, 0)
  const PeerMade := Handle(1, 0)
  const ConnectingSession := Session(Some(SocketMade), None, {SocketMade}, {}, {}, {}, 1)
  const ConnectedSession := Session(None, Some(PeerMade), {}, {PeerMade}, {PeerMade}, {}, 2)

  /** Started and connecting; connected; and invalidated before a request was sent. */
  const ConnectingClient := Client(Core(Scope(true, 0), ConnectingSession, false, NoRequests, map[], [], []), [], [])
  const ConnectedClient := Client(Core(Scope(true, 0), ConnectedSession, false, NoRequests, map[], [], []), [],
                                  [AnnouncePeer(PeerMade)])
  const InvalidatedClient := Client(
    Core(Scope(true, 1), ConnectedSession, false, NoRequests, map[], [], []),
    [CancelReconnect, Notify(0, Deliver(Connected(PeerMade)))],
    [SendRequestTask, InvalidateTask(1)])

  lemma StartsConnecting()
    ensures Run(InitialClient, [CallStart, RunDispatcher(true)] + [RunIo(true)], true) == ConnectingClient
  {
    var a := Step(InitialClient, CallStart, true);
    var b := Step(a, RunDispatcher(true), true);
    assert b.dispatcher == [] && b.io == [ConnectTask(0)];
    RunTwo(InitialClient, CallStart, RunDispatcher(true), true);
    RunSplit(InitialClient, [CallStart, RunDispatcher(true)], [RunIo(true)], true);
    RunOne(b, RunIo(true), true);
    assert Step(b, RunIo(true), true) == ConnectingClient;
  }

  lemma BecomesConnected()
    ensures Run(ConnectingClient, [ConnectCompletes(SocketMade, true), RunDispatcher(true)] + [RunIo(true)], true)
         == ConnectedClient
  {
    var a := Step(ConnectingClient, ConnectCompletes(SocketMade, true), true);
    var b := Step(a, RunDispatcher(true), true);
    assert b.dispatcher == [] && b.io == [HandleConnected(SocketMade, true)];
    RunTwo(ConnectingClient, ConnectCompletes(SocketMade, true), RunDispatcher(true), true);
    RunSplit(ConnectingClient, [ConnectCompletes(SocketMade, true), RunDispatcher(true)], [RunIo(true)], true);
    RunOne(b, RunIo(true), true);
    assert Step(b, RunIo(true), true) == ConnectedClient;
  }

  lemma IsInvalidated()
    ensures Run(ConnectedClient, [CallRequest, CallInvalidate] + [RunDispatcher(true), RunIo(true)], true)
         == InvalidatedClient
  {
    var a := Step(ConnectedClient, CallRequest, true);
    var b := Step(a, CallInvalidate, true);
    assert b.dispatcher == [UserInvalidate] && b.io == [AnnouncePeer(PeerMade), SendRequestTask];
    var c := Step(b, RunDispatcher(true), true);
    assert c.dispatcher == [CancelReconnect] && c.io == [AnnouncePeer(PeerMade), SendRequestTask, InvalidateTask(1)];
    assert Step(c, RunIo(true), true) == InvalidatedClient;
    RunTwo(ConnectedClient, CallRequest, CallInvalidate, true);
    RunSplit(ConnectedClient, [CallRequest, CallInvalidate], [RunDispatcher(true), RunIo(true)], true);
    RunTwo(b, RunDispatcher(true), RunIo(true), true);
  }

  function CrossingPrefix(): seq<Event> {
    [CallStart, RunDispatcher(true)] + [RunIo(true)]
    + ([ConnectCompletes(SocketMade, true), RunDispatcher(true)] + [RunIo(true)])
    + ([CallRequest, CallInvalidate] + [RunDispatcher(true), RunIo(true)])
  }

  lemma PrefixInvalidates()
    ensures Run(InitialClient, CrossingPrefix(), true) == InvalidatedClient
  {
    hide Run, Step;
    var a := [CallStart, RunDispatcher(true)] + [RunIo(true)];
    var b := [ConnectCompletes(SocketMade, true), RunDispatcher(true)] + [RunIo(true)];
    var c := [CallRequest, CallInvalidate] + [RunDispatcher(true), RunIo(true)];
    StartsConnecting();
    BecomesConnected();
    IsInvalidated();
    RunSplit(InitialClient, a, b, true);
    RunSplit(InitialClient, a + b, c, true);
  }

  /** It happens: a connection is made, a request is called, and the connection is
      invalidated before the request is sent. The user is told `closed` in the
      session after the invalidation, and was never told `connected`. */
  lemma ClosedCanCrossSessions()
    ensures exists events :: ToldAcrossSessions(Run(InitialClient, events, true).core.log)
  {
    hide Run, Step;
    PrefixInvalidates();
    ReachableClientInvariant(CrossingPrefix(), true);
    SendCrossesFromRunning(InvalidatedClient, PeerMade);
    RunSplit(InitialClient, CrossingPrefix(), Crossing(InvalidatedClient), true);
  }

  /** The promise, over all runs: it is kept if and only if request timeouts do not close
      the connection. */
  lemma PromiseKeptExactlyWithoutOption(invalidate: bool)
    ensures (forall events :: !ToldAcrossSessions(Run(InitialClient, events, invalidate).core.log)) <==> !invalidate
  {
    hide Run, ToldAcrossSessions;
    if invalidate {
      ClosedCanCrossSessions();
    } else {
      forall events
        ensures !ToldAcrossSessions(Run(InitialClient, events, invalidate).core.log)
      {
        NothingToldAcross(events);
      }
    }
  }
}
