/** How the client's requests end: whatever ends one, once on its way, has ended it when the
    queues are empty; and a response that nothing else precedes answers its request. */
module ClientEndings {
  import opened Common
  import opened Queues
  import opened NotificationScope
  import opened Requests
  import opened ClientModel
  import opened ClientProofs
  import opened ClientProgress
  import opened ClientOrder
  import opened ClientTheorems

  predicate Concludes(signal: Signal, id: RequestId) {
    signal.Error? || signal.Closing? || (signal.Response? && signal.id == id)
  }

  predicate TaskConcludes(task: IoTask, p: Handle, id: RequestId) {
    task.StopTask? || task.InvalidateTask? || (task.ForwardSignal? && task.peer == p && Concludes(task.signal, id))
  }

  /** What ends request `id` of connection `p` is on its way. */
  ghost predicate EndQueued(s: Client, p: Handle, id: RequestId) {
    || (exists signal :: Concludes(signal, id) && SignalSlot(p, signal) in s.dispatcher)
    || (exists task :: TaskConcludes(task, p, id) && task in s.io)
  }

  /** The request is complete, or what ends it is on its way from its own connection. */
  ghost predicate EndComing(s: Client, p: Handle, id: RequestId) {
    id !in s.core.requests.pending || (s.core.session.peer == Some(p) && EndQueued(s, p, id))
  }

  lemma DispatcherKeepsComing(s: Client, verified: bool, invalidate: bool, p: Handle, id: RequestId)
    requires s.dispatcher != [] && EndComing(s, p, id)
    ensures EndComing(Step(s, RunDispatcher(verified), invalidate), p, id)
  {
    hide RunDispatcherTask, Concludes;
    var t := Step(s, RunDispatcher(verified), invalidate);
    StepQueues(s, RunDispatcher(verified), invalidate);
    SlotPasses(s.core, s.dispatcher[0], verified);
    if id in s.core.requests.pending {
      if signal :| Concludes(signal, id) && SignalSlot(p, signal) in s.dispatcher {
        if s.dispatcher[0] == SignalSlot(p, signal) {
          assert TaskConcludes(ForwardSignal(p, signal), p, id) && ForwardSignal(p, signal) in t.io;
        } else {
          assert SignalSlot(p, signal) in t.dispatcher;
        }
      } else {
        var task :| TaskConcludes(task, p, id) && task in s.io;
        assert task in t.io;
      }
    }
  }

  /** A slot posts its signal as it is. */
  lemma SlotPasses(c: Core, task: DispatcherTask, verified: bool)
    ensures var f := RunDispatcherTask(c, task, verified);
            && (task.SignalSlot? ==> f.posted == [ForwardSignal(task.peer, task.signal)])
            && f.core.requests == c.requests && f.core.session == c.session
  {
  }

  /** A pending request stays on its connection until it is completed; a task that ends it does so. */
  lemma IoKeepsPending(c: Core, task: IoTask, endpointOk: bool, p: Handle, id: RequestId)
    requires id <= c.requests.nextId && SessionSound(c)
    ensures var f := RunIoTask(c, task, endpointOk);
            && (id in f.core.requests.pending ==>
                  id in c.requests.pending && (c.session.peer == Some(p) ==> f.core.session.peer == c.session.peer))
            && (c.session.peer == Some(p) && TaskConcludes(task, p, id) ==> id !in f.core.requests.pending)
            && id <= f.core.requests.nextId
  {
    hide Failures;
  }

  lemma EventKeepsPending(c: Core, e: Event, invalidate: bool, p: Handle, id: RequestId)
    requires id <= c.requests.nextId
    ensures var f := Happens(c, e, invalidate);
            && (id in f.core.requests.pending ==>
                  id in c.requests.pending && (c.session.peer == Some(p) ==> f.core.session.peer == c.session.peer))
            && id <= f.core.requests.nextId
  {
    hide Failures;
  }

  /** What ends a request stays queued until it runs. */
  lemma QueuedEndStays(s: Client, e: Event, invalidate: bool, p: Handle, id: RequestId)
    requires Enabled(s, e) && !e.RunDispatcher? && (e.RunIo? ==> !TaskConcludes(s.io[0], p, id))
    ensures EndQueued(s, p, id) ==> EndQueued(Step(s, e, invalidate), p, id)
  {
    hide RunDispatcherTask, RunIoTask, Happens, Concludes;
    var t := Step(s, e, invalidate);
    StepQueues(s, e, invalidate);
    if signal :| Concludes(signal, id) && SignalSlot(p, signal) in s.dispatcher {
      assert SignalSlot(p, signal) in t.dispatcher;
    }
    if task :| TaskConcludes(task, p, id) && task in s.io {
      assert task in t.io;
    }
  }

  lemma StepKeepsComing(s: Client, e: Event, invalidate: bool, p: Handle, id: RequestId)
    requires SessionSound(s.core) && EndComing(s, p, id) && id <= s.core.requests.nextId && Enabled(s, e)
    ensures EndComing(Step(s, e, invalidate), p, id)
    ensures id <= Step(s, e, invalidate).core.requests.nextId
  {
    hide SessionSound, RunDispatcherTask, RunIoTask, Happens, EndQueued;
    match e {
      case RunDispatcher(verified) =>
        SlotPasses(s.core, s.dispatcher[0], verified);
        DispatcherKeepsComing(s, verified, invalidate, p, id);
      case RunIo(endpointOk) =>
        IoKeepsPending(s.core, s.io[0], endpointOk, p, id);
        if !TaskConcludes(s.io[0], p, id) {
          QueuedEndStays(s, e, invalidate, p, id);
        }
      case _ =>
        EventKeepsPending(s.core, e, invalidate, p, id);
        QueuedEndStays(s, e, invalidate, p, id);
    }
  }

  lemma {:induction false} RunKeepsComing(s: Client, more: seq<Event>, invalidate: bool, p: Handle, id: RequestId)
    requires ClientInvariant(s) && EndComing(s, p, id) && id <= s.core.requests.nextId
    ensures EndComing(Run(s, more, invalidate), p, id) && ClientInvariant(Run(s, more, invalidate))
    ensures id <= Run(s, more, invalidate).core.requests.nextId
    decreases |more|
  {
    hide ClientInvariant, EndComing, Step, Enabled;
    if more != [] {
      InvariantSession(s);
      if Enabled(s, more[0]) {
        StepKeepsComing(s, more[0], invalidate, p, id);
      } else {
        DisabledStutters(s, more[0], invalidate);
      }
      StepKeepsClientInvariant(s, more[0], invalidate);
      RunKeepsComing(Step(s, more[0], invalidate), more[1..], invalidate, p, id);
    }
  }

  lemma InvariantSession(s: Client)
    requires ClientInvariant(s)
    ensures SessionSound(s.core)
    ensures forall id :: id in s.core.requests.pending ==> 1 <= id <= s.core.requests.nextId
    ensures forall id :: 1 <= id <= s.core.requests.nextId && id !in s.core.requests.pending ==>
              CalledBack(s.core.requests, id)
  {
    hide SessionSound, TokensSound, HandlesKnown, PeersSound, CleanupsInOrder, ConnectionsAlive, NoPeerUnclosed,
         NeverStalled, OrderInvariant, FailuresInSession, CalledBack;
  }

  /** Nothing that ends a request is lost: once its response, an error or the close of its
      connection, a stop or an invalidation is queued, the request has been called back, and
      is pending no more, when both queues are empty. */
  lemma QueuedEndCallsBack(events: seq<Event>, more: seq<Event>, invalidate: bool, p: Handle, id: RequestId)
    requires var s := Run(InitialClient, events, invalidate);
             id in s.core.requests.pending && s.core.session.peer == Some(p) && EndQueued(s, p, id)
    ensures var t := Run(Run(InitialClient, events, invalidate), more, invalidate);
            t.dispatcher == [] && t.io == [] ==> CalledBack(t.core.requests, id) && id !in t.core.requests.pending
  {
    hide Run, ClientInvariant, CalledBack;
    var s := Run(InitialClient, events, invalidate);
    ReachableClientInvariant(events, invalidate);
    InvariantSession(s);
    RunKeepsComing(s, more, invalidate, p, id);
    InvariantSession(Run(s, more, invalidate));
  }

  /** With both queues empty, whatever request is pending waits on an open connection of the
      running session, and can still be answered. */
  lemma PendingWaitsOnOpenPeer(events: seq<Event>, invalidate: bool, id: RequestId)
    requires id in Run(InitialClient, events, invalidate).core.requests.pending
    ensures var s := Run(InitialClient, events, invalidate);
            var p := s.core.session.peer;
            && p.Some? && s.core.requests.pending[id].connection == p.value.id
            && (s.dispatcher == [] && s.io == [] ==>
                  p.value in s.core.session.live && s.core.scope.IsCurrent(p.value.token))
  {
    hide Run, TokensSound, HandlesKnown, PeersSound, NoPeerUnclosed, NeverStalled, OrderInvariant, FailuresInSession,
         Conserved;
    ReachableClientInvariant(events, invalidate);
  }

  /** A response to a request that nothing else completes meanwhile answers it: with both
      queues empty before, its slot and its I/O task hand exactly its data to the callback. */
  lemma ResponseAnswers(
    events: seq<Event>, invalidate: bool, p: Handle, id: RequestId, data: Bytes, verified: bool, endpointOk: bool
  )
    requires var s := Run(InitialClient, events, invalidate);
             s.dispatcher == [] && s.io == [] && id in s.core.requests.pending && s.core.session.peer == Some(p)
    ensures var s := Run(InitialClient, events, invalidate);
            var answer := [PeerEmits(p, Response(id, data)), RunDispatcher(verified), RunIo(endpointOk)];
            var t := Run(s, answer, invalidate);
            && Callback(id, p.id, Answered(p.id, id, data)) in t.core.requests.callbacks
            && t.core.requests.pending == s.core.requests.pending - {id}
            && t.dispatcher == [] && t.io == [] && t.core.log == s.core.log
  {
    hide Run, Step, ClientInvariant;
    var s := Run(InitialClient, events, invalidate);
    ReachableClientInvariant(events, invalidate);
    CurrentIsKnown(s);
    PendingOnPeer(s, id);
    var emitted := Step(s, PeerEmits(p, Response(id, data)), invalidate);
    var passed := Step(emitted, RunDispatcher(verified), invalidate);
    ResponseEmitted(s, invalidate, p, id, data);
    ResponsePassed(emitted, invalidate, p, id, data, verified);
    ResponseArrives(passed, invalidate, p, id, data, endpointOk);
    RunThree(s, PeerEmits(p, Response(id, data)), RunDispatcher(verified), RunIo(endpointOk), invalidate);
  }

  lemma CurrentIsKnown(s: Client)
    requires ClientInvariant(s) && s.core.session.peer.Some?
    ensures s.core.session.peer.value in s.core.session.peers
  {
    hide SessionSound, TokensSound, PeersSound, CleanupsInOrder, RequestsOnPeer, ConnectionsAlive, NoPeerUnclosed,
         NeverStalled, OrderInvariant, FailuresInSession;
  }

  lemma ResponseEmitted(s: Client, invalidate: bool, p: Handle, id: RequestId, data: Bytes)
    requires s.dispatcher == [] && p in s.core.session.peers
    ensures var t := Step(s, PeerEmits(p, Response(id, data)), invalidate);
            && t.dispatcher == [SignalSlot(p, Response(id, data))] && t.io == s.io && t.core.log == s.core.log
            && t.core.requests == s.core.requests && t.core.session == s.core.session
  {
  }

  lemma ResponsePassed(s: Client, invalidate: bool, p: Handle, id: RequestId, data: Bytes, verified: bool)
    requires s.dispatcher == [SignalSlot(p, Response(id, data))] && s.io == []
    ensures var t := Step(s, RunDispatcher(verified), invalidate);
            t.dispatcher == [] && t.io == [ForwardSignal(p, Response(id, data))] && t.core == s.core
  {
  }

  lemma ResponseArrives(s: Client, invalidate: bool, p: Handle, id: RequestId, data: Bytes, endpointOk: bool)
    requires s.dispatcher == [] && s.io == [ForwardSignal(p, Response(id, data))] && s.core.session.peer == Some(p)
    requires id in s.core.requests.pending && s.core.requests.pending[id].connection == p.id
    ensures var t := Step(s, RunIo(endpointOk), invalidate);
            && Callback(id, p.id, Answered(p.id, id, data)) in t.core.requests.callbacks
            && t.core.requests.pending == s.core.requests.pending - {id}
            && t.dispatcher == [] && t.io == [] && t.core.log == s.core.log
  {
  }
}
