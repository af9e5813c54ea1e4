/** Answers to the client's requests: only what its connection responded is ever handed
    to a callback, unchanged, and what it responds to a pending request is. */
module ClientAnswers {
  import opened Common
  import opened Queues
  import opened NotificationScope
  import opened Requests
  import opened ClientModel
  import opened ClientProofs
  import opened ClientProgress
  import opened ClientOrder
  import opened ClientTheorems

  /** Connection `p` enqueued this response. */
  predicate Responded(c: Core, p: Handle, id: RequestId, data: Bytes) {
    Emission(p, Response(id, data)) in c.emitted
  }

  predicate SlotResponded(c: Core, task: DispatcherTask) {
    task.SignalSlot? && task.signal.Response? ==> Responded(c, task.peer, task.signal.id, task.signal.data)
  }

  predicate TaskResponded(c: Core, task: IoTask) {
    task.ForwardSignal? && task.signal.Response? ==> Responded(c, task.peer, task.signal.id, task.signal.data)
  }

  ghost predicate CallbackResponded(c: Core, b: Callback) {
    b.outcome.Answered? ==>
      exists p: Handle :: p.id == b.outcome.from && Responded(c, p, b.outcome.responseId, b.outcome.data)
  }

  /** Every response on its way, and every answer handed over, was enqueued by its connection. */
  ghost predicate AnswersSound(s: Client) {
    && (forall task :: task in s.dispatcher ==> SlotResponded(s.core, task))
    && (forall task :: task in s.io ==> TaskResponded(s.core, task))
    && (forall b :: b in s.core.requests.callbacks ==> CallbackResponded(s.core, b))
  }

  /** A slot posts its signal as it is. */
  lemma DispatcherForwards(c: Core, task: DispatcherTask, verified: bool)
    ensures var f := RunDispatcherTask(c, task, verified);
            && (forall t :: t in f.enqueued ==> !t.SignalSlot?)
            && (forall t :: t in f.posted && t.ForwardSignal? ==> task == SignalSlot(t.peer, t.signal))
            && (task.SignalSlot? ==> f.posted == [ForwardSignal(task.peer, task.signal)])
            && f.core.requests == c.requests && f.core.emitted == c.emitted && f.core.session == c.session
  {
  }

  lemma NewCallbacksFailed(r: RequestTable, ids: set<RequestId>, code: ErrorCode, b: Callback)
    requires b in FailAll(r, ids, code).callbacks && b.outcome.Answered?
    ensures b in r.callbacks
  {
  }

  predicate Answers(c: Core, task: IoTask, b: Callback) {
    && b.outcome.Answered? && task.ForwardSignal?
    && task.peer.id == b.outcome.from && task.signal == Response(b.outcome.responseId, b.outcome.data)
  }

  /** Only a forwarded response answers a request, with what it forwards. */
  lemma IoAnswers(c: Core, task: IoTask, endpointOk: bool, b: Callback)
    requires b in RunIoTask(c, task, endpointOk).core.requests.callbacks && b.outcome.Answered?
    ensures b in c.requests.callbacks || Answers(c, task, b)
  {
    hide FailAll;
    var r := c.requests;
    if b !in r.callbacks {
      match task {
        case StopTask | InvalidateTask(_) => FailedOnly(r, OperationAborted, b);
        case ForwardSignal(p, signal) =>
          FailedOnly(r, ConnectionReset, b);
          if signal.Error? {
            FailedOnly(r, signal.code, b);
          }
        case _ =>
      }
    }
  }

  lemma FailedOnly(r: RequestTable, code: ErrorCode, b: Callback)
    requires b.outcome.Answered? && b !in r.callbacks
    ensures b !in CompleteAll(r, code).callbacks
  {
    if b in CompleteAll(r, code).callbacks {
      NewCallbacksFailed(r, r.pending.Keys, code, b);
    }
  }

  lemma IoForwardsNothing(c: Core, task: IoTask, endpointOk: bool)
    ensures var f := RunIoTask(c, task, endpointOk);
            && (forall t :: t in f.enqueued && t.SignalSlot? ==> t.signal == Closing)
            && (forall t :: t in f.posted ==> !t.ForwardSignal?)
            && c.emitted <= f.core.emitted
  {
    hide CompleteAll, Complete, Add;
  }

  lemma EventAnswersNothing(c: Core, e: Event, invalidate: bool, b: Callback)
    requires b in Happens(c, e, invalidate).core.requests.callbacks && b.outcome.Answered?
    ensures b in c.requests.callbacks
  {
    hide FailAll;
    if e.RequestTimerRuns? && b !in TimerRuns(c.requests, e.id, e.expired).callbacks {
      FailedOnly(TimerRuns(c.requests, e.id, e.expired), ConnectionReset, b);
    }
  }

  lemma EventForwardsNothing(c: Core, e: Event, invalidate: bool)
    ensures var f := Happens(c, e, invalidate);
            && (forall t :: t in f.enqueued && t.SignalSlot? ==>
                  t.signal == Closing || (e.PeerEmits? && t == SignalSlot(e.peer, e.signal)))
            && (forall t :: t in f.posted ==> !t.ForwardSignal?)
            && c.emitted <= f.core.emitted
            && (e.PeerEmits? ==> Emission(e.peer, e.signal) in f.core.emitted)
  {
    hide CompleteAll, TimerRuns, TimesOut;
  }

  lemma CallbacksRemembered(c: Core, d: Core)
    requires c.emitted <= d.emitted
    ensures forall b :: CallbackResponded(c, b) ==> CallbackResponded(d, b)
    ensures forall task :: SlotResponded(c, task) ==> SlotResponded(d, task)
    ensures forall task :: TaskResponded(c, task) ==> TaskResponded(d, task)
  {
    forall b | CallbackResponded(c, b) && b.outcome.Answered?
      ensures CallbackResponded(d, b)
    {
      var p: Handle :| p.id == b.outcome.from && Responded(c, p, b.outcome.responseId, b.outcome.data);
      assert Responded(d, p, b.outcome.responseId, b.outcome.data);
    }
  }

  lemma StepKeepsAnswers(s: Client, e: Event, invalidate: bool)
    requires AnswersSound(s) && Enabled(s, e)
    ensures AnswersSound(Step(s, e, invalidate))
  {
    hide RunDispatcherTask, RunIoTask, Happens, CallbackResponded;
    var t := Step(s, e, invalidate);
    StepQueues(s, e, invalidate);
    match e {
      case RunDispatcher(verified) =>
        DispatcherForwards(s.core, s.dispatcher[0], verified);
        assert s.dispatcher[0] in s.dispatcher;
        CallbacksRemembered(s.core, t.core);
      case RunIo(endpointOk) =>
        IoForwardsNothing(s.core, s.io[0], endpointOk);
        CallbacksRemembered(s.core, t.core);
        assert s.io[0] in s.io;
        forall b | b in t.core.requests.callbacks
          ensures CallbackResponded(t.core, b)
        {
          AnsweredByHead(s, endpointOk, invalidate, b);
        }
      case _ =>
        EventForwardsNothing(s.core, e, invalidate);
        CallbacksRemembered(s.core, t.core);
        forall b | b in t.core.requests.callbacks
          ensures CallbackResponded(t.core, b)
        {
          if b.outcome.Answered? {
            EventAnswersNothing(s.core, e, invalidate, b);
          } else {
            NotAnswered(t.core, b);
          }
        }
    }
  }

  lemma NotAnswered(c: Core, b: Callback)
    requires !b.outcome.Answered?
    ensures CallbackResponded(c, b)
  {
  }

  lemma AnsweredByHead(s: Client, endpointOk: bool, invalidate: bool, b: Callback)
    requires AnswersSound(s) && s.io != [] && b in RunIoTask(s.core, s.io[0], endpointOk).core.requests.callbacks
    ensures CallbackResponded(RunIoTask(s.core, s.io[0], endpointOk).core, b)
  {
    hide RunIoTask;
    var d := RunIoTask(s.core, s.io[0], endpointOk).core;
    IoForwardsNothing(s.core, s.io[0], endpointOk);
    CallbacksRemembered(s.core, d);
    if b.outcome.Answered? {
      IoAnswers(s.core, s.io[0], endpointOk, b);
      if b !in s.core.requests.callbacks {
        assert s.io[0] in s.io;
        assert TaskResponded(d, s.io[0]);
        assert Responded(d, s.io[0].peer, b.outcome.responseId, b.outcome.data);
      }
    }
  }

  lemma {:induction false} EveryRunKeepsAnswers(s: Client, events: seq<Event>, invalidate: bool)
    requires AnswersSound(s)
    ensures AnswersSound(Run(s, events, invalidate))
    decreases |events|
  {
    hide AnswersSound, Step, Enabled;
    if events != [] {
      if Enabled(s, events[0]) {
        StepKeepsAnswers(s, events[0], invalidate);
      } else {
        DisabledStutters(s, events[0], invalidate);
      }
      EveryRunKeepsAnswers(Step(s, events[0], invalidate), events[1..], invalidate);
    }
  }

  /** Every success callback got exactly what the connection its request was sent on
      responded under the request's own id. */
  lemma AnswersAreResponses(events: seq<Event>, invalidate: bool, b: Callback)
    requires b in Run(InitialClient, events, invalidate).core.requests.callbacks && b.outcome.Answered?
    ensures var c := Run(InitialClient, events, invalidate).core;
            exists p: Handle :: p.id == b.connection && Responded(c, p, b.id, b.outcome.data)
  {
    hide Run;
    EveryRunKeepsAnswers(InitialClient, events, invalidate);
    ResponsesStayOnTheirConnection(events, invalidate, b);
    assert CallbackResponded(Run(InitialClient, events, invalidate).core, b);
  }
}
