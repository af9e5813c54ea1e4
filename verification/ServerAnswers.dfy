/** Answers to the server's requests: only what a peer responded is ever handed to a
    callback, unchanged, and what it responds to a pending request is. */
module ServerAnswers {
  import opened Common
  import opened Queues
  import opened NotificationScope
  import opened Requests
  import opened ServerModel
  import opened ServerProofs
  import opened ServerProgress
  import opened ServerPeers
  import opened ServerLifecycle
  import opened ServerDelivery
  import opened ServerTheorems

  /** The peer enqueued this response. */
  predicate Responded(m: Members, p: PeerId, id: RequestId, data: Bytes) {
    p in m.known && Response(id, data) in m.known[p].responses
  }

  predicate SlotResponded(m: Members, task: DispatcherTask) {
    task.PeerSlot? && task.signal.Response? ==> Responded(m, task.peer, task.signal.id, task.signal.data)
  }

  predicate TaskResponded(m: Members, task: IoTask) {
    task.ForwardResponse? ==> Responded(m, task.peer, task.id, task.data)
  }

  predicate CallbackResponded(m: Members, b: Callback) {
    b.outcome.Answered? ==> Responded(m, b.outcome.from, b.outcome.responseId, b.outcome.data)
  }

  /** Every response on its way, and every answer handed over, was enqueued by its peer. */
  ghost predicate AnswersSound(s: Server) {
    && (forall task :: task in s.dispatcher ==> SlotResponded(s.core.members, task))
    && (forall task :: task in s.io ==> TaskResponded(s.core.members, task))
    && (forall b :: b in s.core.requests.callbacks ==> CallbackResponded(s.core.members, b))
  }

  /** Responses are never forgotten. */
  ghost predicate Remembers(m: Members, n: Members) {
    forall p :: p in m.known ==> p in n.known && m.known[p].responses <= n.known[p].responses
  }

  lemma DispatcherRemembers(c: Core, task: DispatcherTask, verified: bool)
    ensures Remembers(c.members, MembersAfterDispatcher(c, task, verified))
  {
  }

  lemma IoRemembers(m: Members, task: IoTask)
    ensures Remembers(m, MembersAfterIo(m, task))
  {
  }

  lemma EventRemembers(c: Core, e: Event, n: Members)
    requires e.PeerEmits? || e.PeerDestroyed? ==> e.peer in c.members.known
    requires MembersSound(c.members) && MembersAfterEvent(c, e, n)
    ensures Remembers(c.members, n)
    ensures e.PeerEmits? ==> SlotResponded(n, PeerSlot(e.peer, e.signal))
  {
  }

  /** Only a live peer's slot forwards a response, and forwards it as it is. */
  lemma DispatcherForwards(c: Core, task: DispatcherTask, verified: bool)
    ensures var f := RunDispatcherTask(c, task, verified);
            && (forall t :: t in f.enqueued ==> !t.PeerSlot?)
            && (forall t :: t in f.posted && t.ForwardResponse? ==> task == PeerSlot(t.peer, Response(t.id, t.data)))
            && (forall p, id, data :: task == PeerSlot(p, Response(id, data)) && !Released(c.members, p) ==>
                  f.posted == [ForwardResponse(p, id, data)])
            && f.core.requests == c.requests
  {
    hide Judge, Settle;
  }

  lemma NewCallbacksFailed(r: RequestTable, ids: set<RequestId>, code: ErrorCode, b: Callback)
    requires b in FailAll(r, ids, code).callbacks && b.outcome.Answered?
    ensures b in r.callbacks
  {
  }

  /** Only a forwarded response answers a request, with what it forwards. */
  lemma IoAnswers(c: Core, task: IoTask, ok: bool, order: seq<PeerId>, b: Callback)
    requires b in RunIoTask(c, task, ok, order).core.requests.callbacks && b.outcome.Answered?
    ensures b in c.requests.callbacks || task == ForwardResponse(b.outcome.from, b.outcome.responseId, b.outcome.data)
  {
    hide FailAll, Expel, Emit, Enumerates;
    var r := c.requests;
    match task
    case StopTask =>
      if b !in r.callbacks { NewCallbacksFailed(r, r.pending.Keys, OperationAborted, b); }
    case ClosePeerRequest(p) =>
      if b !in r.callbacks { NewCallbacksFailed(r, OfPeer(r, p), OperationAborted, b); }
    case FailRequests(p, code) =>
      if b !in r.callbacks { NewCallbacksFailed(r, OfPeer(r, p), code, b); }
    case ForgetPeer(p) =>
      if b !in r.callbacks { NewCallbacksFailed(r, OfPeer(r, p), ConnectionReset, b); }
    case _ =>
  }

  lemma IoForwardsNothing(c: Core, task: IoTask, ok: bool, order: seq<PeerId>)
    ensures var f := RunIoTask(c, task, ok, order);
            && (forall t :: t in f.enqueued && t.PeerSlot? ==> t.signal == Closing)
            && (forall t :: t in f.posted ==> !t.ForwardResponse?)
  {
    hide CompleteAll, CompletePeer, CompleteOfPeer, Add, Expel, Emit, Enumerates;
  }

  lemma EventAnswersNothing(c: Core, e: Event, invalidate: bool, b: Callback)
    requires e.PeerEmits? || e.PeerDestroyed? ==> e.peer in c.members.known
    requires b in Happens(c, e, invalidate).core.requests.callbacks && b.outcome.Answered?
    ensures b in c.requests.callbacks
  {
    hide FailAll, Expel, Emit, Adopt, AcceptNext, DropProbe, ConnectFailed, AdoptProbe;
    if e.RequestTimerRuns? && b !in c.requests.callbacks {
      var ran := TimerRuns(c.requests, e.id, e.expired);
      if e.id in c.requests.pending && c.requests.pending[e.id].peer.Some? && b !in ran.callbacks {
        NewCallbacksFailed(ran, OfPeer(ran, c.requests.pending[e.id].peer.value), OperationAborted, b);
      }
    }
  }

  lemma EventForwardsNothing(c: Core, e: Event, invalidate: bool)
    requires e.PeerEmits? || e.PeerDestroyed? ==> e.peer in c.members.known
    ensures var f := Happens(c, e, invalidate);
            && (forall t :: t in f.enqueued && t.PeerSlot? ==>
                  t.signal == Closing || (e.PeerEmits? && t == PeerSlot(e.peer, e.signal)))
            && (forall t :: t in f.posted ==> !t.ForwardResponse?)
  {
    hide CompletePeer, TimerRuns, TimesOut, Expel, Emit, Adopt, AcceptNext, DropProbe, ConnectFailed, AdoptProbe;
  }

  /** Responses on their way stay the peers' own if whatever a step adds is. */
  lemma QueuesKeepAnswers(s: Server, e: Event, invalidate: bool)
    requires AnswersSound(s) && Enabled(s, e) && Remembers(s.core.members, Step(s, e, invalidate).core.members)
    requires var f := EffectOf(s, e, invalidate);
             && (forall task :: task in f.enqueued ==> SlotResponded(f.core.members, task))
             && (forall task :: task in f.posted ==> TaskResponded(f.core.members, task))
             && (forall b :: b in f.core.requests.callbacks ==>
                   b in s.core.requests.callbacks || CallbackResponded(f.core.members, b))
    ensures AnswersSound(Step(s, e, invalidate))
  {
    hide RunDispatcherTask, RunIoTask, Happens, MayEmit, MayBeDestroyed, Enumerates;
    StepQueues(s, e, invalidate);
  }

  lemma DispatcherKeepsAnswers(s: Server, verified: bool, invalidate: bool)
    requires AnswersSound(s) && s.dispatcher != []
    ensures AnswersSound(Step(s, RunDispatcher(verified), invalidate))
  {
    hide RunDispatcherTask, MembersAfterDispatcher;
    DispatcherFrame(s.core, s.dispatcher[0], verified);
    DispatcherRemembers(s.core, s.dispatcher[0], verified);
    DispatcherForwards(s.core, s.dispatcher[0], verified);
    assert s.dispatcher[0] in s.dispatcher;
    QueuesKeepAnswers(s, RunDispatcher(verified), invalidate);
  }

  lemma IoKeepsAnswers(s: Server, ok: bool, order: seq<PeerId>, invalidate: bool)
    requires AnswersSound(s) && Enabled(s, RunIo(ok, order))
    ensures AnswersSound(Step(s, RunIo(ok, order), invalidate))
  {
    hide RunIoTask, MembersAfterIo, ListeningAfterIo, Enumerates;
    var d := RunIoTask(s.core, s.io[0], ok, order).core;
    IoFrame(s.core, s.io[0], ok, order);
    IoRemembers(s.core.members, s.io[0]);
    IoForwardsNothing(s.core, s.io[0], ok, order);
    assert s.io[0] in s.io;
    forall b | b in d.requests.callbacks
      ensures b in s.core.requests.callbacks || CallbackResponded(d.members, b)
    {
      if b.outcome.Answered? {
        IoAnswers(s.core, s.io[0], ok, order, b);
      }
    }
    QueuesKeepAnswers(s, RunIo(ok, order), invalidate);
  }

  lemma EventKeepsAnswers(s: Server, e: Event, invalidate: bool)
    requires AnswersSound(s) && MembersSound(s.core.members)
    requires Enabled(s, e) && !e.RunDispatcher? && !e.RunIo?
    ensures AnswersSound(Step(s, e, invalidate))
  {
    hide Happens, MayEmit, MembersSound, MembersAfterEvent, ListeningAfterEvent;
    var d := Happens(s.core, e, invalidate).core;
    EventFrame(s.core, e, invalidate);
    EventRemembers(s.core, e, d.members);
    EventForwardsNothing(s.core, e, invalidate);
    forall b | b in d.requests.callbacks
      ensures b in s.core.requests.callbacks || CallbackResponded(d.members, b)
    {
      if b.outcome.Answered? {
        EventAnswersNothing(s.core, e, invalidate, b);
      }
    }
    QueuesKeepAnswers(s, e, invalidate);
  }

  lemma StepKeepsAnswers(s: Server, e: Event, invalidate: bool)
    requires AnswersSound(s) && MembersSound(s.core.members) && Enabled(s, e)
    ensures AnswersSound(Step(s, e, invalidate))
  {
    hide AnswersSound, MembersSound, Step, MayEmit, MayBeDestroyed, Enumerates;
    match e
    case RunDispatcher(verified) => DispatcherKeepsAnswers(s, verified, invalidate);
    case RunIo(ok, order) => IoKeepsAnswers(s, ok, order, invalidate);
    case _ => EventKeepsAnswers(s, e, invalidate);
  }

  lemma {:induction false} EveryRunKeepsAnswers(s: Server, events: seq<Event>, invalidate: bool)
    requires ServerInvariant(s) && AnswersSound(s)
    ensures AnswersSound(Run(s, events, invalidate))
    decreases |events|
  {
    hide ServerInvariant, AnswersSound, Step, Enabled;
    if events != [] {
      if Enabled(s, events[0]) {
        ServerMembers(s);
        StepKeepsAnswers(s, events[0], invalidate);
      } else {
        DisabledStutters(s, events[0], invalidate);
      }
      StepKeepsServerInvariant(s, events[0], invalidate);
      EveryRunKeepsAnswers(Step(s, events[0], invalidate), events[1..], invalidate);
    }
  }

  /** Every success callback got exactly what the peer its request was sent on responded
      under the request's own id. */
  lemma AnswersAreResponses(events: seq<Event>, invalidate: bool, b: Callback)
    requires b in Run(InitialServer, events, invalidate).core.requests.callbacks && b.outcome.Answered?
    ensures Responded(Run(InitialServer, events, invalidate).core.members, b.connection, b.id, b.outcome.data)
  {
    hide Run, Responded;
    InitialServerInvariant();
    EveryRunKeepsAnswers(InitialServer, events, invalidate);
    ResponsesStayOnTheirPeer(events, invalidate, b, b.id);
  }
}
