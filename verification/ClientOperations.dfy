/** What each operation of the client achieves: a start runs it, a connection attempt decides
    what the user is told, a request becomes pending, and a stop leaves nothing. */
module ClientOperations {
  import opened Common
  import opened Queues
  import opened NotificationScope
  import opened Requests
  import opened ClientModel
  import opened ClientProofs
  import opened ClientProgress
  import opened ClientOrder
  import opened ClientTheorems
  import opened ClientSettles

  // ------------------------------------------------ starts, stops, invalidations

  /** A start runs the client in its current generation and asks for a connect; a stop and an
      invalidation end the session, cancel the reconnect and ask for the cleanup, and only
      the stop stops the client. None of them touches anything else. */
  lemma CallsTakeEffect(s: Client, verified: bool, invalidate: bool)
    requires s.dispatcher != []
    requires s.dispatcher[0].UserStart? || s.dispatcher[0].UserStop? || s.dispatcher[0].UserInvalidate?
    ensures var t, g := Step(s, RunDispatcher(verified), invalidate), s.core.scope.generation;
            && t.core == s.core.(scope := t.core.scope)
            && (if s.dispatcher[0].UserStart? then
                  t.core.scope.IsCurrent(g) && t.dispatcher == s.dispatcher[1..] && t.io == s.io + [ConnectTask(g)]
                else
                  && t.core.scope.generation > g
                  && t.core.scope.running == (s.core.scope.running && s.dispatcher[0].UserInvalidate?)
                  && t.dispatcher == s.dispatcher[1..] + [CancelReconnect]
                  && t.io == s.io + [if s.dispatcher[0].UserStop? then StopTask
                                     else InvalidateTask(t.core.scope.generation)])
  {
  }

  /** A cleanup leaves no connection and no pending request, and posts the close of the peer;
      an invalidation's also asks for the next attempt. */
  lemma CleanupLeavesNothing(s: Client, endpointOk: bool, invalidate: bool)
    requires s.io != [] && (s.io[0].StopTask? || s.io[0].InvalidateTask?)
    requires s.core.session.peer.None? ==> s.core.requests.pending == map[]
    ensures var t, p := Step(s, RunIo(endpointOk), invalidate), s.core.session.peer;
            && t.core.session == s.core.session.(connecting := None, peer := None)
            && t.core.requests.pending == map[] && t.core.scope == s.core.scope && t.core.log == s.core.log
            && t.dispatcher == s.dispatcher
                               + (if s.io[0].InvalidateTask? then [Notify(s.io[0].token, Reschedule)] else [])
            && t.io == s.io[1..] + if p.Some? then [ClosePeerTask(p.value)] else []
  {
  }

  // ---------------------------------------------------------------- connecting

  /** An attempt of the running session starts exactly one connect, of a new socket, if there
      is an endpoint for it, and otherwise reports the failure; an attempt of an earlier session,
      or while connecting or connected, does nothing. */
  lemma ConnectAttempt(s: Client, endpointOk: bool, invalidate: bool)
    requires s.io != [] && s.io[0].ConnectTask?
    ensures var t, g, k := Step(s, RunIo(endpointOk), invalidate), s.io[0].token, s.core.session;
            var socket := Handle(k.nextId, g);
            && t.core == s.core.(session := t.core.session) && t.io == s.io[1..]
            && (if !s.core.scope.IsCurrent(g) || k.connecting.Some? || k.peer.Some? then
                  t.core == s.core && t.dispatcher == s.dispatcher
                else if endpointOk then
                  && t.core.session == k.(connecting := Some(socket), connects := k.connects + {socket},
                                          nextId := k.nextId + 1)
                  && t.dispatcher == s.dispatcher
                else
                  t.core == s.core && t.dispatcher == s.dispatcher + [Notify(g, Deliver(ConnectFailed(g)))])
  {
  }

  /** A connect of the connecting socket asks for its verification if it succeeded, and reports
      the failure otherwise; any other connect goes unnoticed. */
  lemma ConnectOutcome(s: Client, socket: Handle, ok: bool, invalidate: bool)
    requires Enabled(s, ConnectCompletes(socket, ok))
    ensures var t, k := Step(s, ConnectCompletes(socket, ok), invalidate), s.core.session;
            var current := s.core.scope.running && k.connecting == Some(socket);
            && t.core == s.core.(session := t.core.session) && t.io == s.io
            && t.core.session == k.(connects := k.connects - {socket},
                                    connecting := if current && !ok then None else k.connecting)
            && t.dispatcher == s.dispatcher
                               + (if !current then []
                                  else if ok then [Notify(socket.token, Verify(socket))]
                                  else [Notify(socket.token, Deliver(ConnectFailed(socket.token)))])
  {
  }

  /** The user's verdict is taken back to the I/O thread as given. */
  lemma VerdictIsPassed(s: Client, verified: bool, invalidate: bool)
    requires s.dispatcher != [] && s.dispatcher[0].Notify? && s.dispatcher[0].notification.Verify?
    requires s.core.scope.IsCurrent(s.dispatcher[0].token)
    ensures var t, socket := Step(s, RunDispatcher(verified), invalidate), s.dispatcher[0].notification.socket;
            t.core == s.core && t.dispatcher == s.dispatcher[1..] && t.io == s.io + [HandleConnected(socket, verified)]
  {
  }

  /** A verified socket of the running session becomes the peer, open and about to be announced;
      a refused one is reported; and one of an earlier session is dropped silently. */
  lemma VerdictDecides(s: Client, endpointOk: bool, invalidate: bool)
    requires s.io != [] && s.io[0].HandleConnected? && s.core.session.connecting == Some(s.io[0].socket)
    ensures var t, g, k := Step(s, RunIo(endpointOk), invalidate), s.io[0].socket.token, s.core.session;
            var current, p := s.core.scope.IsCurrent(g), Handle(k.nextId, g);
            && t.core == s.core.(session := t.core.session) && t.core.session.connecting.None?
            && (if current && s.io[0].verified then
                  && t.core.session.peer == Some(p) && p in t.core.session.live && p in t.core.session.peers
                  && t.dispatcher == s.dispatcher && t.io == s.io[1..] + [AnnouncePeer(p)]
                else
                  && t.core.session == k.(connecting := None) && t.io == s.io[1..]
                  && t.dispatcher == s.dispatcher
                                     + if current then [Notify(g, Deliver(VerificationFailed(g)))] else [])
  {
  }

  /** With both queues empty the user has been told of the current connection. */
  lemma CurrentPeerIsAnnounced(events: seq<Event>, invalidate: bool)
    ensures var s := Run(InitialClient, events, invalidate);
            s.dispatcher == [] && s.io == [] && s.core.session.peer.Some? ==>
              && s.core.scope.IsCurrent(s.core.session.peer.value.token)
              && ConnectedTold(s.core.log, s.core.session.peer.value)
  {
    hide Run, TokensSound, HandlesKnown, PeersSound, ConnectionsAlive, RequestsOnPeer, NoPeerUnclosed, NeverStalled,
         FailuresInSession;
    ReachableClientInvariant(events, invalidate);
  }

  // ---------------------------------------------------------------- being told

  /** A note queued in generation `g` was told after the first `n` entries, is still queued,
      or its session is over. */
  ghost predicate TellsLater(s: Client, g: Token, note: UserNote, n: nat) {
    || g < s.core.scope.generation
    || (s.core.scope.IsCurrent(g)
        && (Notify(g, Deliver(note)) in s.dispatcher || ToldSince(s.core.log, Entry(note, g), n)))
  }

  ghost predicate ToldSince(log: seq<Entry>, entry: Entry, n: nat) {
    exists k :: n <= k < |log| && log[k] == entry
  }

  lemma LogGrows(c: Core, task: DispatcherTask, verified: bool)
    ensures var d := RunDispatcherTask(c, task, verified).core;
            && c.log <= d.log
            && (task.Notify? && task.notification.Deliver? && c.scope.IsCurrent(task.token) ==>
                  d.log == c.log + [Entry(task.notification.note, task.token)])
            && (d.scope == c.scope || c.scope.generation < d.scope.generation || d.scope == Start(c.scope))
  {
  }

  lemma OthersTellNothing(s: Client, e: Event, invalidate: bool)
    requires Enabled(s, e) && !e.RunDispatcher?
    ensures var d := EffectOf(s, e, invalidate).core; d.log == s.core.log && d.scope == s.core.scope
  {
    hide CompleteAll, Complete, Add, TimerRuns, TimesOut;
  }

  lemma StepTellsLater(s: Client, e: Event, invalidate: bool, g: Token, note: UserNote, n: nat)
    requires TellsLater(s, g, note, n) && n <= |s.core.log| && Enabled(s, e)
    ensures TellsLater(Step(s, e, invalidate), g, note, n) && s.core.log <= Step(s, e, invalidate).core.log
  {
    hide RunDispatcherTask, RunIoTask, Happens;
    var t, entry := Step(s, e, invalidate), Entry(note, g);
    StepQueues(s, e, invalidate);
    match e {
      case RunDispatcher(verified) =>
        LogGrows(s.core, s.dispatcher[0], verified);
        if s.dispatcher[0] == Notify(g, Deliver(note)) && s.core.scope.IsCurrent(g) {
          assert t.core.log[|s.core.log|] == entry;
        }
      case _ => OthersTellNothing(s, e, invalidate);
    }
    if k :| n <= k < |s.core.log| && s.core.log[k] == entry {
      assert t.core.log[k] == entry;
    }
  }

  lemma {:induction false} RunTellsLater(
    s: Client, more: seq<Event>, invalidate: bool, g: Token, note: UserNote, n: nat
  )
    requires TellsLater(s, g, note, n) && n <= |s.core.log|
    ensures TellsLater(Run(s, more, invalidate), g, note, n)
    decreases |more|
  {
    hide TellsLater, Step, Enabled;
    if more != [] {
      if Enabled(s, more[0]) {
        StepTellsLater(s, more[0], invalidate, g, note, n);
      } else {
        DisabledStutters(s, more[0], invalidate);
      }
      RunTellsLater(Step(s, more[0], invalidate), more[1..], invalidate, g, note, n);
    }
  }

  /** Whatever the client queues for its user is told: in any continuation of the same
      session, once the dispatcher has caught up, under the token it was queued with. */
  lemma QueuedNoteIsTold(s: Client, more: seq<Event>, invalidate: bool, g: Token, note: UserNote)
    requires s.core.scope.IsCurrent(g) && Notify(g, Deliver(note)) in s.dispatcher
    ensures var t := Run(s, more, invalidate);
            t.core.scope.IsCurrent(g) && t.dispatcher == [] ==>
              ToldSince(t.core.log, Entry(note, g), |s.core.log|)
  {
    hide Run;
    RunTellsLater(s, more, invalidate, g, note, |s.core.log|);
  }

  // ------------------------------------------------------------------ requests

  /** A request sent on a connection is pending on it under a fresh id, its timer started and
      the token of now captured; one sent without a connection changes nothing. */
  lemma SentRequestIsPending(events: seq<Event>, invalidate: bool, endpointOk: bool)
    requires var s := Run(InitialClient, events, invalidate); s.io != [] && s.io[0].SendRequestTask?
    ensures var s := Run(InitialClient, events, invalidate);
            var t, p, r := Step(s, RunIo(endpointOk), invalidate), s.core.session.peer, s.core.requests;
            var id := r.nextId + 1;
            && t.dispatcher == s.dispatcher && t.io == s.io[1..] && id !in r.pending && !CalledBack(r, id)
            && (if p.Some? then
                  && t.core == s.core.(requests := t.core.requests, captured := t.core.captured)
                  && t.core.requests.pending == r.pending[id := Pending(None, p.value.id)]
                  && t.core.requests.timers == r.timers + {id} && t.core.requests.callbacks == r.callbacks
                  && t.core.requests.nextId == id
                  && t.core.captured == s.core.captured[id := s.core.scope.generation]
                else t.core == s.core)
  {
    hide Run, ClientInvariant;
    var s := Run(InitialClient, events, invalidate);
    ReachableClientInvariant(events, invalidate);
    NextIdIsFresh(s);
  }

  lemma NextIdIsFresh(s: Client)
    requires ClientInvariant(s)
    ensures var r, id := s.core.requests, s.core.requests.nextId + 1; id !in r.pending && !CalledBack(r, id)
  {
    hide SessionSound, TokensSound, HandlesKnown, PeersSound, CleanupsInOrder, ConnectionsAlive, NoPeerUnclosed,
         NeverStalled, OrderInvariant, FailuresInSession;
  }

  /** With the option set, a request that times out ends its connection: the other requests are
      reset, the close is posted, and `closed` is queued under the token of when it was sent. */
  lemma TimeoutEndsConnection(s: Client, id: RequestId, invalidate: bool)
    requires ClientInvariant(s) && Enabled(s, RequestTimerRuns(id, true)) && id in s.core.requests.pending
    ensures s.core.session.peer.Some? && id in s.core.captured
    ensures var t, p := Step(s, RequestTimerRuns(id, true), invalidate), s.core.session.peer.value;
            var ran := TimerRuns(s.core.requests, id, true);
            if invalidate then
              && t.core == s.core.(requests := CompleteAll(ran, ConnectionReset),
                                   session := s.core.session.(peer := None))
              && t.dispatcher == s.dispatcher + [Notify(s.core.captured[id], Deliver(Closed(p)))]
              && t.io == s.io + [ClosePeerTask(p)]
            else t == s.(core := s.core.(requests := ran))
  {
    hide TimerRuns, CompleteAll, SessionSound, TokensSound, HandlesKnown, PeersSound, CleanupsInOrder, ConnectionsAlive,
         NoPeerUnclosed, NeverStalled, OrderInvariant, FailuresInSession;
  }

  // ------------------------------------------------------------- after a stop

  /** What a queued task does to the reconnect timer. */
  function Rearms(task: DispatcherTask): Option<bool> {
    if task.DebounceReconnect? then Some(true) else if task.CancelReconnect? then Some(false) else None
  }

  /** On a stopped client the timer is off, or the queued tasks will have turned it off. */
  ghost predicate ReconnectSound(s: Client) {
    !s.core.scope.running ==> !WillBeArmed(s.dispatcher, Rearms, s.core.armed)
  }

  lemma DispatcherRearms(c: Core, task: DispatcherTask, verified: bool)
    requires !task.UserStop?
    ensures var f := RunDispatcherTask(c, task, verified);
            && f.core.armed == ArmedBy(Rearms(task), c.armed) && (c.scope.running ==> f.core.scope.running)
            && (c.scope.running || forall t :: t in f.enqueued ==> Rearms(t) != Some(true))
  {
  }

  lemma OthersRearm(s: Client, e: Event, invalidate: bool)
    requires Enabled(s, e) && !e.RunDispatcher?
    ensures var f := EffectOf(s, e, invalidate);
            && f.core.scope == s.core.scope && (f.core.armed == s.core.armed || !f.core.armed)
            && (forall t :: t in f.enqueued ==> Rearms(t) == None)
  {
    hide CompleteAll, Complete, Add, TimerRuns, TimesOut;
  }

  lemma {:induction false} DisarmedStays(queue: seq<DispatcherTask>, armed: bool)
    requires !WillBeArmed(queue, Rearms, armed)
    ensures !WillBeArmed(queue, Rearms, false)
    decreases |queue|
  {
    if queue != [] && Rearms(queue[0]).None? {
      DisarmedStays(queue[1..], armed);
    }
  }

  lemma {:induction false} StaysDisarmed(queue: seq<DispatcherTask>, added: seq<DispatcherTask>, armed: bool)
    requires !WillBeArmed(queue, Rearms, armed) && forall t :: t in added ==> Rearms(t) != Some(true)
    ensures !WillBeArmed(queue + added, Rearms, armed)
    decreases |added|
  {
    hide Rearms;
    if added == [] {
      assert queue + added == queue;
    } else {
      var rest, last := added[..|added| - 1], added[|added| - 1];
      StaysDisarmed(queue, rest, armed);
      AppendArmed(queue + rest, [last], Rearms, armed);
      assert queue + rest + [last] == queue + added && [last][1..] == [];
    }
  }

  lemma StepKeepsReconnect(s: Client, e: Event, invalidate: bool)
    requires ReconnectSound(s) && Enabled(s, e)
    ensures ReconnectSound(Step(s, e, invalidate))
  {
    hide RunDispatcherTask, RunIoTask, Happens, Rearms;
    match e
    case RunDispatcher(verified) =>
      if s.dispatcher[0].UserStop? {
        StopDisarms(s, verified);
      } else {
        DispatcherRearms(s.core, s.dispatcher[0], verified);
        if !s.core.scope.running {
          StaysDisarmed(s.dispatcher[1..], EffectOf(s, e, invalidate).enqueued, EffectOf(s, e, invalidate).core.armed);
        }
      }
    case _ =>
      OthersRearm(s, e, invalidate);
      if !s.core.scope.running {
        DisarmedStays(s.dispatcher, s.core.armed);
        StaysDisarmed(s.dispatcher, EffectOf(s, e, invalidate).enqueued, EffectOf(s, e, invalidate).core.armed);
      }
  }

  lemma StopDisarms(s: Client, verified: bool)
    requires s.dispatcher != [] && s.dispatcher[0] == UserStop
    ensures var f := RunDispatcherTask(s.core, s.dispatcher[0], verified);
            !WillBeArmed(s.dispatcher[1..] + f.enqueued, Rearms, f.core.armed)
  {
    AppendArmed(s.dispatcher[1..], [CancelReconnect], Rearms, s.core.armed);
    assert [CancelReconnect][1..] == [];
  }

  lemma {:induction false} EveryRunKeepsReconnect(s: Client, events: seq<Event>, invalidate: bool)
    requires ReconnectSound(s)
    ensures ReconnectSound(Run(s, events, invalidate))
    decreases |events|
  {
    hide ReconnectSound, Step, Enabled;
    if events != [] {
      if Enabled(s, events[0]) {
        StepKeepsReconnect(s, events[0], invalidate);
      } else {
        DisabledStutters(s, events[0], invalidate);
      }
      EveryRunKeepsReconnect(Step(s, events[0], invalidate), events[1..], invalidate);
    }
  }

  predicate LetGo(c: Core) {
    && c.session.connecting.None? && c.session.peer.None? && c.session.live == {}
    && c.requests.pending == map[] && !c.armed
  }

  /** A stopped client with nothing queued has let go of everything: no connection, no
      attempt, no open peer, no timer of its own, and no request waits. */
  lemma StoppedClientIsClean(events: seq<Event>, invalidate: bool)
    ensures var s := Run(InitialClient, events, invalidate);
            !s.core.scope.running && s.dispatcher == [] && s.io == [] ==> LetGo(s.core)
  {
    hide Run, ClientInvariant;
    var s := Run(InitialClient, events, invalidate);
    ReachableClientInvariant(events, invalidate);
    EveryRunKeepsReconnect(InitialClient, events, invalidate);
    if !s.core.scope.running && s.dispatcher == [] && s.io == [] {
      NothingLeft(s);
    }
  }

  lemma NothingLeft(s: Client)
    requires ClientInvariant(s) && !s.core.scope.running && s.io == []
    ensures s.core.session.connecting.None? && s.core.session.peer.None? && s.core.session.live == {}
    ensures s.core.requests.pending == map[]
  {
    hide TokensSound, HandlesKnown, PeersSound, ConnectionsAlive, NeverStalled, OrderInvariant, FailuresInSession,
         Conserved;
    assert s.core.requests.pending.Keys == {};
  }

  // ------------------------------------------------------------- the last call

  /** What a queued call does to whether the client runs. */
  function Switching(task: DispatcherTask): Option<bool> {
    if task.UserStart? then Some(true) else if task.UserStop? then Some(false) else None
  }

  /** Whether it will run once the queued calls have been processed. */
  predicate WillRun(s: Client) {
    WillBeArmed(s.dispatcher, Switching, s.core.scope.running)
  }

  predicate RunsAfterCall(e: Event, running: bool) {
    e.CallStart? || (running && !e.CallStop?)
  }

  /** Whether the last start or stop among these events is a start. */
  predicate RunsAfter(events: seq<Event>, running: bool)
    decreases |events|
  {
    if events == [] then running else RunsAfter(events[1..], RunsAfterCall(events[0], running))
  }

  lemma DispatcherSwitches(c: Core, task: DispatcherTask, verified: bool)
    ensures var f := RunDispatcherTask(c, task, verified);
            && f.core.scope.running == ArmedBy(Switching(task), c.scope.running)
            && (forall t :: t in f.enqueued ==> Switching(t) == None)
  {
  }

  lemma OthersSwitch(s: Client, e: Event, invalidate: bool)
    requires Enabled(s, e) && !e.RunDispatcher?
    ensures var f := EffectOf(s, e, invalidate);
            && f.core.scope == s.core.scope
            && (if e.CallStart? then f.enqueued == [UserStart]
                else if e.CallStop? then f.enqueued == [UserStop]
                else forall t :: t in f.enqueued ==> Switching(t) == None)
  {
    hide CompleteAll, Complete, Add, TimerRuns, TimesOut;
  }

  lemma StepSwitches(s: Client, e: Event, invalidate: bool)
    ensures WillRun(Step(s, e, invalidate)) <==> RunsAfterCall(e, WillRun(s))
  {
    hide RunDispatcherTask, RunIoTask, Happens, Switching;
    if Enabled(s, e) {
      var f, q := EffectOf(s, e, invalidate), Remaining(s, e).dispatcher;
      AppendArmed(q, f.enqueued, Switching, f.core.scope.running);
      if e.RunDispatcher? {
        DispatcherSwitches(s.core, s.dispatcher[0], e.verified);
        LeavesArmed(f.enqueued, Switching, WillRun(s));
      } else {
        OthersSwitch(s, e, invalidate);
        CallSwitches(e, f.enqueued, WillRun(s));
      }
    }
  }

  lemma CallSwitches(e: Event, enqueued: seq<DispatcherTask>, running: bool)
    requires if e.CallStart? then enqueued == [UserStart]
             else if e.CallStop? then enqueued == [UserStop]
             else forall t :: t in enqueued ==> Switching(t) == None
    ensures WillBeArmed(enqueued, Switching, running) <==> RunsAfterCall(e, running)
  {
    if e.CallStart? || e.CallStop? {
      assert enqueued[1..] == [];
    } else {
      LeavesArmed(enqueued, Switching, running);
    }
  }

  lemma {:induction false} RunSwitches(s: Client, events: seq<Event>, invalidate: bool)
    ensures WillRun(Run(s, events, invalidate)) <==> RunsAfter(events, WillRun(s))
    decreases |events|
  {
    hide Step, WillRun;
    if events != [] {
      StepSwitches(s, events[0], invalidate);
      RunSwitches(Step(s, events[0], invalidate), events[1..], invalidate);
    }
  }

  /** Whatever happened in between, a client with both queues empty is as its user last asked
      for: if that was a start it runs and waits for a connect, an open peer or the timer, and
      if it was a stop it has let go of everything. */
  lemma ClientEndsAsLastCalled(events: seq<Event>, invalidate: bool)
    ensures var s := Run(InitialClient, events, invalidate);
            s.dispatcher == [] && s.io == [] ==>
              if RunsAfter(events, false) then s.core.scope.running && Waits(s.core)
              else !s.core.scope.running && LetGo(s.core)
  {
    hide Run, RunsAfter;
    RunSwitches(InitialClient, events, invalidate);
    ClientNeverStalls(events, invalidate);
    StoppedClientIsClean(events, invalidate);
  }

  /** Every other call is queued as it is, and by itself changes nothing. */
  lemma CallsAreQueued(s: Client, invalidate: bool)
    ensures Step(s, CallInvalidate, invalidate) == s.(dispatcher := s.dispatcher + [UserInvalidate])
    ensures Step(s, CallRequest, invalidate) == s.(io := s.io + [SendRequestTask])
  {
    assert s.io + [] == s.io && s.dispatcher + [] == s.dispatcher;
  }
}
