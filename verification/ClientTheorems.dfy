/** The client's properties over whole runs. */
module ClientTheorems {
  import opened Common
  import opened NotificationScope
  import opened Requests
  import opened ClientModel
  import opened ClientProofs
  import opened ClientProgress
  import opened ClientOrder

  ghost predicate ClientInvariant(s: Client) {
    && SessionSound(s.core) && TokensSound(s)
    && HandlesKnown(s) && PeersSound(s.core)
    && CleanupsInOrder(s)
    && RequestsOnPeer(s.core)
    && ConnectionsAlive(s)
    && NoPeerUnclosed(s)
    && NeverStalled(s)
    && OrderInvariant(s)
    && FailuresInSession(s)
  }

  lemma InitialClientInvariant()
    ensures ClientInvariant(InitialClient)
  {
  }

  lemma StepKeepsClientInvariant(s: Client, e: Event, invalidate: bool)
    requires ClientInvariant(s)
    ensures ClientInvariant(Step(s, e, invalidate))
  {
    hide SessionSound, TokensSound, HandlesKnown, PeersSound, CleanupsInOrder, RequestsOnPeer, ConnectionsAlive,
         NoPeerUnclosed, NeverStalled, OrderInvariant, Step, Enabled;
    if Enabled(s, e) {
      StepKeepsTokensSound(s, e, invalidate);
      StepKeepsHandlesKnown(s, e, invalidate);
      StepKeepsPeersSound(s, e, invalidate);
      StepKeepsRequests(s, e, invalidate);
      StepKeepsFailures(s, e, invalidate);
      match e
      case RunDispatcher(verified) => DispatcherStepKeeps(s, verified, invalidate);
      case RunIo(endpointOk) => IoStepKeeps(s, endpointOk, invalidate);
      case _ => EventStepKeeps(s, e, invalidate);
    } else {
      DisabledStutters(s, e, invalidate);
    }
  }

  lemma DisabledStutters(s: Client, e: Event, invalidate: bool)
    requires !Enabled(s, e)
    ensures Step(s, e, invalidate) == s
  {
  }

  ghost predicate LateInvariant(s: Client) {
    CleanupsInOrder(s) && ConnectionsAlive(s) && NoPeerUnclosed(s) && NeverStalled(s) && OrderInvariant(s)
  }

  lemma DispatcherStepKeeps(s: Client, verified: bool, invalidate: bool)
    requires ClientInvariant(s) && Enabled(s, RunDispatcher(verified))
    ensures LateInvariant(Step(s, RunDispatcher(verified), invalidate))
  {
    hide SessionSound, TokensSound, HandlesKnown, PeersSound, CleanupsInOrder, RequestsOnPeer, ConnectionsAlive,
         NoPeerUnclosed, NeverStalled, OrderInvariant, Step;
    DispatcherKeepsCleanups(s, verified, invalidate);
    DispatcherKeepsAlive(s, verified, invalidate);
    DispatcherKeepsClosed(s, verified, invalidate);
    DispatcherNeverStalls(s, verified, invalidate);
    DispatcherKeepsOrder(s, verified, invalidate);
  }

  lemma IoStepKeeps(s: Client, endpointOk: bool, invalidate: bool)
    requires ClientInvariant(s) && Enabled(s, RunIo(endpointOk))
    ensures LateInvariant(Step(s, RunIo(endpointOk), invalidate))
  {
    hide SessionSound, TokensSound, HandlesKnown, PeersSound, CleanupsInOrder, RequestsOnPeer, ConnectionsAlive,
         NoPeerUnclosed, NeverStalled, OrderInvariant, Step;
    IoKeepsCleanups(s, endpointOk, invalidate);
    IoKeepsAlive(s, endpointOk, invalidate);
    IoKeepsClosed(s, endpointOk, invalidate);
    IoNeverStalls(s, endpointOk, invalidate);
    IoKeepsOrder(s, endpointOk, invalidate);
  }

  lemma EventStepKeeps(s: Client, e: Event, invalidate: bool)
    requires ClientInvariant(s) && Enabled(s, e) && !e.RunDispatcher? && !e.RunIo?
    ensures LateInvariant(Step(s, e, invalidate))
  {
    hide SessionSound, TokensSound, HandlesKnown, PeersSound, CleanupsInOrder, RequestsOnPeer, ConnectionsAlive,
         NoPeerUnclosed, NeverStalled, OrderInvariant, Step, Enabled;
    EventKeepsCleanups(s, e, invalidate);
    EventKeepsAlive(s, e, invalidate);
    EventKeepsClosed(s, e, invalidate);
    EventNeverStalls(s, e, invalidate);
    EventKeepsOrder(s, e, invalidate);
  }

  lemma {:induction false} EveryRunKeepsClientInvariant(s: Client, events: seq<Event>, invalidate: bool)
    requires ClientInvariant(s)
    ensures ClientInvariant(Run(s, events, invalidate))
    decreases |events|
  {
    hide ClientInvariant, Step;
    if events != [] {
      StepKeepsClientInvariant(s, events[0], invalidate);
      EveryRunKeepsClientInvariant(Step(s, events[0], invalidate), events[1..], invalidate);
    }
  }

  lemma ReachableClientInvariant(events: seq<Event>, invalidate: bool)
    ensures ClientInvariant(Run(InitialClient, events, invalidate))
  {
    InitialClientInvariant();
    EveryRunKeepsClientInvariant(InitialClient, events, invalidate);
  }

  lemma {:induction false} RunSplit(s: Client, first: seq<Event>, second: seq<Event>, invalidate: bool)
    ensures Run(s, first + second, invalidate) == Run(Run(s, first, invalidate), second, invalidate)
    decreases |first|
  {
    hide Step;
    if first == [] {
      assert first + second == second;
    } else {
      assert (first + second)[1..] == first[1..] + second;
      RunSplit(Step(s, first[0], invalidate), first[1..], second, invalidate);
    }
  }

  lemma RunOne(s: Client, a: Event, invalidate: bool)
    ensures Run(s, [a], invalidate) == Step(s, a, invalidate)
  {
    hide Step;
    assert [a][1..] == [];
  }

  lemma RunTwo(s: Client, a: Event, b: Event, invalidate: bool)
    ensures Run(s, [a, b], invalidate) == Step(Step(s, a, invalidate), b, invalidate)
  {
    hide Step;
    assert [a, b][1..] == [b];
    RunOne(Step(s, a, invalidate), b, invalidate);
  }

  lemma RunThree(s: Client, a: Event, b: Event, c: Event, invalidate: bool)
    ensures Run(s, [a, b, c], invalidate) == Step(Step(Step(s, a, invalidate), b, invalidate), c, invalidate)
  {
    hide Step;
    assert [a, b, c][1..] == [b, c];
    RunTwo(Step(s, a, invalidate), b, c, invalidate);
  }

  // -------------------------------------------------------------- main results

  /** Whatever the interleaving, a running client is connecting, connected, or has
      something queued or armed that leads to another attempt; and with nothing
      queued it waits for an async_connect, for an open peer, or for the timer. */
  lemma ClientNeverStalls(events: seq<Event>, invalidate: bool)
    ensures var s := Run(InitialClient, events, invalidate);
            s.core.scope.running ==>
              && LeadsOn(s)
              && (s.dispatcher == [] && s.io == [] ==>
                    || s.core.armed
                    || (s.core.session.connecting.Some? && s.core.session.connecting.value in s.core.session.connects)
                    || (s.core.session.peer.Some? && s.core.session.peer.value in s.core.session.live))
  {
    hide Run;
    ReachableClientInvariant(events, invalidate);
  }

  /** What the user is told about one connection: data, requests and errors only
      after `connected`, nothing after `closed`, hence `closed` at most once, and
      `connected` never again. */
  lemma ClientTellsInOrder(events: seq<Event>, invalidate: bool, i: nat, j: nat)
    requires i < j < |Run(InitialClient, events, invalidate).core.log|
    ensures var log := Run(InitialClient, events, invalidate).core.log;
            && MayFollow(log[i].note, log[j].note)
            && (Mentions(log[j].note) && !log[j].note.Connected? && !log[j].note.Closed? ==>
                  ConnectedTold(log[..j], log[j].note.peer))
  {
    hide Run;
    ReachableClientInvariant(events, invalidate);
    assert EntrySound(Run(InitialClient, events, invalidate), j);
  }

  /** No peer is assigned over another, and none is given up before its close ran
      or was posted. */
  lemma NoClientPeerReleasedUnclosed(events: seq<Event>, invalidate: bool, p: Handle)
    ensures var s := Run(InitialClient, events, invalidate);
            && (s.core.session.connecting.None? || s.core.session.peer.None?)
            && (p in s.core.session.live && s.core.session.peer != Some(p) ==> ClosePeerTask(p) in s.io)
  {
    hide Run;
    ReachableClientInvariant(events, invalidate);
  }

  /** A success callback only ever receives what was read from the connection its
      request was sent on, with the same request id; and each request is called back once. */
  lemma ResponsesStayOnTheirConnection(events: seq<Event>, invalidate: bool, b: Callback)
    requires b in Run(InitialClient, events, invalidate).core.requests.callbacks
    ensures var r := Run(InitialClient, events, invalidate).core.requests;
            && r.callbacks[b] == 1 && b.id !in r.pending
            && (b.outcome.Answered? ==> b.outcome.from == b.connection && b.outcome.responseId == b.id)
  {
    hide Run;
    ReachableClientInvariant(events, invalidate);
  }

  /** In every reachable state the expired timer has exactly the effect whose
      confinement `ClientTimeoutIsConfined` states. */
  lemma ClientTimeoutHandled(events: seq<Event>, invalidate: bool, id: RequestId)
    requires id in Run(InitialClient, events, invalidate).core.requests.pending
    ensures var c := Run(InitialClient, events, invalidate).core;
            && Conserved(c.requests)
            && RequestTimer(c, id, true, invalidate).core.requests == ClientTimeout(c.requests, id, invalidate)
  {
    hide Run, TokensSound, HandlesKnown, PeersSound, CleanupsInOrder, ConnectionsAlive, NoPeerUnclosed, NeverStalled,
         OrderInvariant, Conserved, CompleteAll, TimerRuns;
    ReachableClientInvariant(events, invalidate);
  }

  /** The error an I/O task gives every pending request. */
  function EndingCode(c: Core, task: IoTask): Option<ErrorCode> {
    match task
    case StopTask | InvalidateTask(_) => Some(OperationAborted)
    case ForwardSignal(p, Error(code)) => if c.session.peer == Some(p) then Some(code) else None
    case ForwardSignal(p, Closing) => if c.session.peer == Some(p) then Some(ConnectionReset) else None
    case _ => None
  }

  predicate AnswersRequest(c: Core, task: IoTask, id: RequestId) {
    && task.ForwardSignal? && c.session.peer == Some(task.peer)
    && task.signal.Response? && task.signal.id == id
  }

  /** A stop, an invalidation, an error or a close calls back every pending request with
      its error; an answer calls back its own request; nothing else touches one. */
  lemma EndsAllRequests(events: seq<Event>, invalidate: bool, endpointOk: bool, id: RequestId)
    requires var s := Run(InitialClient, events, invalidate); s.io != [] && id in s.core.requests.pending
    ensures var s := Run(InitialClient, events, invalidate);
            var r, t := s.core.requests, RunIoTask(s.core, s.io[0], endpointOk).core.requests;
            var connection, code := r.pending[id].connection, EndingCode(s.core, s.io[0]);
            && (code.Some? ==> id !in t.pending && Callback(id, connection, Failed(code.value)) in t.callbacks)
            && (AnswersRequest(s.core, s.io[0], id) ==>
                  && id !in t.pending
                  && Callback(id, connection, Answered(connection, id, s.io[0].signal.data)) in t.callbacks)
            && (code.None? && !AnswersRequest(s.core, s.io[0], id) ==>
                  id in t.pending && t.pending[id] == r.pending[id])
  {
    hide Run, ClientInvariant, RunIoTask;
    var s := Run(InitialClient, events, invalidate);
    ReachableClientInvariant(events, invalidate);
    PendingOnPeer(s, id);
    TaskEndsRequests(s.core, s.io[0], endpointOk, id);
  }

  lemma PendingOnPeer(s: Client, id: RequestId)
    requires ClientInvariant(s) && id in s.core.requests.pending
    ensures s.core.session.peer.Some? && s.core.requests.pending[id].connection == s.core.session.peer.value.id
    ensures id <= s.core.requests.nextId
  {
    hide SessionSound, TokensSound, HandlesKnown, PeersSound, CleanupsInOrder, ConnectionsAlive, NoPeerUnclosed,
         NeverStalled, OrderInvariant;
  }

  lemma TaskEndsRequests(c: Core, task: IoTask, endpointOk: bool, id: RequestId)
    requires id in c.requests.pending && id <= c.requests.nextId
    requires c.session.peer.Some? && c.requests.pending[id].connection == c.session.peer.value.id
    ensures var r, t := c.requests, RunIoTask(c, task, endpointOk).core.requests;
            var connection, code := r.pending[id].connection, EndingCode(c, task);
            && (code.Some? ==> id !in t.pending && Callback(id, connection, Failed(code.value)) in t.callbacks)
            && (AnswersRequest(c, task, id) ==>
                  && id !in t.pending
                  && Callback(id, connection, Answered(connection, id, task.signal.data)) in t.callbacks)
            && (code.None? && !AnswersRequest(c, task, id) ==> id in t.pending && t.pending[id] == r.pending[id])
  {
    hide FailAll;
    if EndingCode(c, task).Some? {
      FailAllEffect(c.requests, c.requests.pending.Keys, EndingCode(c, task).value, id);
    }
  }
}
