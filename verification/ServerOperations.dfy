/** What each operation of the server achieves: a start runs it, a bind attempt decides what
    the user is told, an accepted socket joins, a close closes, and a stop leaves nothing. */
module ServerOperations {
  import opened Common
  import opened Queues
  import opened NotificationScope
  import opened Requests
  import opened ServerModel
  import opened ServerProofs
  import opened ServerProgress
  import opened ServerChecks
  import opened ServerProbes
  import opened ServerPeers
  import opened ServerLifecycle
  import opened ServerDelivery
  import opened ServerTheorems
  import opened ServerSettles
  import opened ServerHealth

  // ------------------------------------------------------------ starts, stops

  /** A start runs the server in its current generation and asks for a bind; a stop ends the
      session, hides every peer and asks for the cleanup. Neither touches anything else. */
  lemma StartsAndStopsTakeEffect(s: Server, verified: bool, invalidate: bool)
    requires s.dispatcher != [] && (s.dispatcher[0].UserStart? || s.dispatcher[0].UserStop?)
    ensures var t, g := Step(s, RunDispatcher(verified), invalidate), s.core.scope.generation;
            if s.dispatcher[0].UserStart? then
              && t.core == s.core.(scope := t.core.scope) && t.core.scope.IsCurrent(g)
              && t.dispatcher == s.dispatcher[1..] && t.io == s.io + [BindTask(g)]
            else
              && t.core == s.core.(scope := t.core.scope, members := s.core.members.(exposed := {}))
              && !t.core.scope.running && t.core.scope.generation > g
              && t.dispatcher == s.dispatcher[1..] + [CancelRetry, StopChecks] && t.io == s.io + [StopTask]
  {
  }

  // ------------------------------------------------------------------- binding

  /** A bind attempt of the running session listens, with an accept outstanding on a new
      acceptor, exactly if everything it needs succeeds; an attempt of an earlier session, or
      with an acceptor, does nothing. */
  lemma BindAttempt(s: Server, ok: bool, order: seq<PeerId>, invalidate: bool)
    requires Enabled(s, RunIo(ok, order)) && s.io[0].BindTask?
    ensures var t, g, l := Step(s, RunIo(ok, order), invalidate), s.io[0].token, s.core.listening;
            var a := Acceptor(l.nextId, g);
            && t.core == s.core.(listening := t.core.listening) && t.io == s.io[1..]
            && (if !s.core.scope.IsCurrent(g) || l.acceptor.Some? then t.core == s.core && t.dispatcher == s.dispatcher
                else
                  && t.core.listening
                     == (if ok then Listening(Some(a), l.accepts + multiset{Accept(a, g)}, l.nextId + 1) else l)
                  && t.dispatcher == s.dispatcher + [Notify(g, Deliver(if ok then Bound else BindFailed))])
  {
  }

  /** And the user is told which of the two it was. */
  lemma BindOutcomeIsTold(s: Server, more: seq<Event>, ok: bool, order: seq<PeerId>, invalidate: bool)
    requires Enabled(s, RunIo(ok, order)) && s.io[0].BindTask?
    requires s.core.scope.IsCurrent(s.io[0].token) && s.core.listening.acceptor.None?
    ensures var t, g := Run(Step(s, RunIo(ok, order), invalidate), more, invalidate), s.io[0].token;
            t.core.scope.IsCurrent(g) && t.dispatcher == [] ==>
              ToldSince(t.core.log, Entry(OfSession(if ok then Bound else BindFailed), g), |s.core.log|)
  {
    hide Run, Step;
    BindAttempt(s, ok, order, invalidate);
    QueuedNoteIsTold(Step(s, RunIo(ok, order), invalidate), more, invalidate, s.io[0].token,
                     if ok then Bound else BindFailed);
  }

  // ----------------------------------------------------------------- accepting

  /** An accepted socket becomes a peer never known before, open, in the map, and not yet told
      of; and the next accept is outstanding as long as there is an acceptor. */
  lemma AcceptedSocketJoins(events: seq<Event>, op: Accept, invalidate: bool)
    requires var s := Run(InitialServer, events, invalidate);
             Enabled(s, AcceptCompletes(op, Accepted)) && s.core.scope.IsCurrent(op.token)
    ensures var s := Run(InitialServer, events, invalidate);
            var t, p := Step(s, AcceptCompletes(op, Accepted), invalidate), s.core.members.nextPeerId + 1;
            var m, n, a := s.core.members, t.core.members, s.core.listening.acceptor;
            && p !in m.known && n.known.Keys == m.known.Keys + {p} && n.known[p].token == op.token && IsOpen(n, p)
            && n.peers == m.peers + {p} && n.exposed == m.exposed && p !in n.exposed
            && (forall q :: q in m.known ==> n.known[q] == m.known[q])
            && t.core.listening.acceptor == a
            && t.core.listening.accepts
               == s.core.listening.accepts - multiset{op}
                  + (if a.Some? then multiset{Accept(a.value, op.token)} else multiset{})
            && t.dispatcher == s.dispatcher && t.io == s.io
  {
    hide Run, ServerInvariant;
    var s := Run(InitialServer, events, invalidate);
    ReachableServerInvariant(events, invalidate);
    ServerMembers(s);
    AcceptJoins(s, op, invalidate);
  }

  lemma AcceptJoins(s: Server, op: Accept, invalidate: bool)
    requires MembersSound(s.core.members)
    requires Enabled(s, AcceptCompletes(op, Accepted)) && s.core.scope.IsCurrent(op.token)
    ensures var t, p := Step(s, AcceptCompletes(op, Accepted), invalidate), s.core.members.nextPeerId + 1;
            && p !in s.core.members.known && p !in s.core.members.exposed
            && t.core.members == Adopt(s.core.members, op.token) && t.dispatcher == s.dispatcher && t.io == s.io
            && t.core.listening == AcceptNext(s.core.listening.(accepts := s.core.listening.accepts - multiset{op}),
                                              op.token)
  {
  }

  /** A failed accept gives up the listener and touches nothing else; an aborted one changes
      nothing, and neither does any accept of an earlier session. */
  lemma FailedAcceptClosesListener(s: Server, op: Accept, result: AcceptResult, invalidate: bool)
    requires Enabled(s, AcceptCompletes(op, result)) && (result.Accepted? ==> !s.core.scope.IsCurrent(op.token))
    ensures var t, l := Step(s, AcceptCompletes(op, result), invalidate), s.core.listening;
            var failed := result.AcceptFails? && s.core.scope.IsCurrent(op.token);
            && t.core == s.core.(listening := t.core.listening) && t.io == s.io
            && t.core.listening == Listening(if failed then None else l.acceptor, l.accepts - multiset{op}, l.nextId)
            && t.dispatcher == s.dispatcher + if failed then [Notify(op.token, Deliver(ListenerClosed))] else []
  {
  }

  // ------------------------------------------------------------------- closing

  /** `p` has left the map by a local close: its requests are aborted, its close is posted,
      and no other peer is touched. */
  predicate ClosedLocally(c: Core, requests: RequestTable, d: Core, p: PeerId, posted: seq<IoTask>) {
    && d.members.peers == c.members.peers - {p} && posted == [PeerCloseTask(p, true)]
    && p in d.members.known && d.members.known[p].removed
    && d.members.known.Keys == c.members.known.Keys
    && (forall q :: q in c.members.known && q != p ==> d.members.known[q] == c.members.known[q])
    && d.requests == CompletePeer(requests, p, OperationAborted)
    && d.scope == c.scope && d.log == c.log && d.listening == c.listening && d.probing == c.probing
  }

  lemma CloseRequestCloses(s: Server, ok: bool, order: seq<PeerId>, invalidate: bool)
    requires Enabled(s, RunIo(ok, order)) && s.io[0].ClosePeerRequest? && MembersSound(s.core.members)
    ensures var f, p := EffectOf(s, RunIo(ok, order), invalidate), s.io[0].peer;
            && f.enqueued == []
            && (if p in s.core.members.peers then ClosedLocally(s.core, s.core.requests, f.core, p, f.posted)
                else f.core == s.core && f.posted == [])
  {
  }

  /** With the option set, the peer of a request that timed out is closed in the same way; without
      it, no peer is touched by a timeout. */
  lemma TimeoutClosesItsPeer(s: Server, id: RequestId, invalidate: bool)
    requires Enabled(s, RequestTimerRuns(id, true)) && id in s.core.requests.pending
    requires s.core.requests.pending[id].peer.Some? && MembersSound(s.core.members)
    requires s.core.requests.pending[id].peer.value in s.core.members.peers
    ensures var f, p := EffectOf(s, RequestTimerRuns(id, true), invalidate), s.core.requests.pending[id].peer.value;
            && f.enqueued == []
            && (if invalidate then
                  ClosedLocally(s.core, TimerRuns(s.core.requests, id, true), f.core, p, f.posted)
                else f.core == s.core.(requests := TimerRuns(s.core.requests, id, true)) && f.posted == [])
  {
    hide TimerRuns, CompletePeer;
  }

  /** A posted close closes the peer; a local one is then announced whatever the peer itself signals. */
  lemma PostedCloseCloses(s: Server, ok: bool, order: seq<PeerId>, invalidate: bool)
    requires Enabled(s, RunIo(ok, order)) && s.io[0].PeerCloseTask? && s.io[0].peer in s.core.members.known
    ensures var t, p := Step(s, RunIo(ok, order), invalidate), s.io[0].peer;
            && IsClosed(t.core.members, p)
            && t.core.members == ClosedMember(s.core.members, p) && t.core == s.core.(members := t.core.members)
            && t.dispatcher == s.dispatcher + (if IsOpen(s.core.members, p) then [PeerSlot(p, Closing)] else [])
                               + if s.io[0].notify then [DeliverSignal(p, Closing)] else []
  {
  }

  // ------------------------------------------------------------- after a stop

  /** What a queued task does to the bind retry timer. */
  function Rearms(task: DispatcherTask): Option<bool> {
    if task.DebounceRetry? then Some(true) else if task.CancelRetry? then Some(false) else None
  }

  /** On a stopped server the retry timer is off, or the queued tasks will have turned it off. */
  ghost predicate RetrySound(s: Server) {
    !s.core.scope.running ==> !WillBeArmed(s.dispatcher, Rearms, s.core.retryArmed)
  }

  lemma DispatcherRearms(c: Core, task: DispatcherTask, verified: bool)
    requires !task.UserStop?
    ensures var f := RunDispatcherTask(c, task, verified);
            && f.core.retryArmed == ArmedBy(Rearms(task), c.retryArmed)
            && (c.scope.running || forall t :: t in f.enqueued ==> Rearms(t) == None)
  {
    hide Judge, Settle;
  }

  lemma OthersRearm(s: Server, e: Event, invalidate: bool)
    requires Enabled(s, e) && !e.RunDispatcher?
    ensures var f := EffectOf(s, e, invalidate);
            && f.core.scope == s.core.scope
            && (f.core.retryArmed == s.core.retryArmed || !f.core.retryArmed)
            && forall t :: t in f.enqueued ==> Rearms(t) == None
  {
    hide RunIoTask, Happens, MembersAfterIo, MembersAfterEvent, ListeningAfterIo, ListeningAfterEvent, Enumerates,
         MayEmit;
    match e
    case RunIo(ok, order) =>
      IoFrame(s.core, s.io[0], ok, order);
      IoRearmsNothing(s.core, s.io[0], ok, order);
    case _ =>
      EventFrame(s.core, e, invalidate);
      EventRearmsNothing(s.core, e, invalidate);
  }

  lemma IoRearmsNothing(c: Core, task: IoTask, ok: bool, order: seq<PeerId>)
    ensures forall t :: t in RunIoTask(c, task, ok, order).enqueued ==> Rearms(t) == None
  {
    hide CompleteAll, CompletePeer, CompleteOfPeer, Add, Expel, Emit, Enumerates, Listen;
  }

  lemma EventRearmsNothing(c: Core, e: Event, invalidate: bool)
    requires e.PeerEmits? || e.PeerDestroyed? ==> e.peer in c.members.known
    ensures var f := Happens(c, e, invalidate);
            && (forall t :: t in f.enqueued ==> Rearms(t) == None)
            && (f.core.retryArmed == c.retryArmed || !f.core.retryArmed)
  {
    hide CompletePeer, TimerRuns, TimesOut, Expel, Emit, Adopt, AcceptNext;
  }

  lemma {:induction false} DisarmedStays(queue: seq<DispatcherTask>, armed: bool)
    requires !WillBeArmed(queue, Rearms, armed)
    ensures !WillBeArmed(queue, Rearms, false)
    decreases |queue|
  {
    if queue != [] && Rearms(queue[0]).None? {
      DisarmedStays(queue[1..], armed);
    }
  }

  lemma StepKeepsRetry(s: Server, e: Event, invalidate: bool)
    requires RetrySound(s) && Enabled(s, e)
    ensures RetrySound(Step(s, e, invalidate))
  {
    hide RunDispatcherTask, RunIoTask, Happens, MayEmit, Enumerates, MembersAfterDispatcher, Rearms;
    match e
    case RunDispatcher(verified) =>
      if s.dispatcher[0].UserStop? {
        StopDisarms(s, verified);
      } else {
        DispatcherFrame(s.core, s.dispatcher[0], verified);
        DispatcherRearms(s.core, s.dispatcher[0], verified);
        if !s.core.scope.running {
          StaysDisarmed(s.dispatcher[1..], EffectOf(s, e, invalidate));
        }
      }
    case _ =>
      OthersRearm(s, e, invalidate);
      if !s.core.scope.running {
        DisarmedStays(s.dispatcher, s.core.retryArmed);
      }
      StaysDisarmed(s.dispatcher, EffectOf(s, e, invalidate));
  }

  lemma StaysDisarmed(queue: seq<DispatcherTask>, f: Effect)
    requires forall t :: t in f.enqueued ==> Rearms(t) == None
    ensures WillBeArmed(queue + f.enqueued, Rearms, f.core.retryArmed) == WillBeArmed(queue, Rearms, f.core.retryArmed)
  {
    AppendArmed(queue, f.enqueued, Rearms, f.core.retryArmed);
    LeavesArmed(f.enqueued, Rearms, WillBeArmed(queue, Rearms, f.core.retryArmed));
  }

  lemma StopDisarms(s: Server, verified: bool)
    requires s.dispatcher != [] && s.dispatcher[0] == UserStop
    ensures var f := RunDispatcherTask(s.core, s.dispatcher[0], verified);
            !WillBeArmed(s.dispatcher[1..] + f.enqueued, Rearms, f.core.retryArmed)
  {
    var before := WillBeArmed(s.dispatcher[1..], Rearms, s.core.retryArmed);
    AppendArmed(s.dispatcher[1..], [CancelRetry, StopChecks], Rearms, s.core.retryArmed);
    assert [CancelRetry, StopChecks][1..] == [StopChecks] && [StopChecks][1..] == [];
    assert !WillBeArmed([CancelRetry, StopChecks], Rearms, before);
  }

  lemma {:induction false} EveryRunKeepsRetry(s: Server, events: seq<Event>, invalidate: bool)
    requires RetrySound(s)
    ensures RetrySound(Run(s, events, invalidate))
    decreases |events|
  {
    hide RetrySound, Step, Enabled;
    if events != [] {
      if Enabled(s, events[0]) {
        StepKeepsRetry(s, events[0], invalidate);
      } else {
        DisabledStutters(s, events[0], invalidate);
      }
      EveryRunKeepsRetry(Step(s, events[0], invalidate), events[1..], invalidate);
    }
  }

  predicate LetGo(c: Core) {
    && c.listening.acceptor.None? && c.members.peers == {} && c.members.exposed == {} && c.requests.pending == map[]
    && c.probing.timeout.None? && c.probing.peer.None? && !c.retryArmed && !c.checking
  }

  /** A stopped server with nothing queued has let go of everything: no acceptor, no peer, no
      probe, no timer of its own, and no request waits. */
  lemma StoppedServerIsClean(events: seq<Event>, invalidate: bool)
    ensures var s := Run(InitialServer, events, invalidate);
            !s.core.scope.running && s.dispatcher == [] && s.io == [] ==> LetGo(s.core)
  {
    hide Run, ServerInvariant;
    var s := Run(InitialServer, events, invalidate);
    ReachableServerInvariant(events, invalidate);
    EveryRunKeepsRetry(InitialServer, events, invalidate);
    if !s.core.scope.running && s.dispatcher == [] && s.io == [] {
      NothingLeft(s);
      ChecksRunWhileAccepting(events, invalidate);
      ProbesNeverStuck(events, invalidate);
    }
  }

  lemma NothingLeft(s: Server)
    requires ServerInvariant(s) && !s.core.scope.running && s.io == []
    ensures s.core.listening.acceptor.None? && s.core.members.peers == {} && s.core.probing.timeout.None?
    ensures s.core.requests.pending == map[]
    ensures s.core.members.exposed == {}
  {
    hide EmissionsDisciplined, TasksKnown, ChecksSound, BoundAnnounced, NeverStalled, ProbingSound, NoProbeUnclosed,
         NoPeerUnclosed, AllAccounted, AllNarrated, AllPeersEnd, Conserved;
    assert forall p :: p in s.core.members.peers ==> p in s.core.members.known;
    assert s.core.requests.pending.Keys == {};
  }

  // ------------------------------------------------------------- the last call

  /** What a queued call does to whether the server runs. */
  function Switching(task: DispatcherTask): Option<bool> {
    if task.UserStart? then Some(true) else if task.UserStop? then Some(false) else None
  }

  /** Whether it will run once the queued calls have been processed. */
  predicate WillRun(s: Server) {
    WillBeArmed(s.dispatcher, Switching, s.core.scope.running)
  }

  predicate RunsAfterCall(e: Event, running: bool) {
    e.CallStart? || (running && !e.CallStop?)
  }

  /** Whether the last start or stop among these events is a start. */
  predicate RunsAfter(events: seq<Event>, running: bool)
    decreases |events|
  {
    if events == [] then running else RunsAfter(events[1..], RunsAfterCall(events[0], running))
  }

  lemma DispatcherSwitches(c: Core, task: DispatcherTask, verified: bool)
    ensures var f := RunDispatcherTask(c, task, verified);
            && f.core.scope.running == ArmedBy(Switching(task), c.scope.running)
            && (forall t :: t in f.enqueued ==> Switching(t) == None)
  {
    hide Judge, Settle;
  }

  lemma IoSwitchesNothing(c: Core, task: IoTask, ok: bool, order: seq<PeerId>)
    ensures forall t :: t in RunIoTask(c, task, ok, order).enqueued ==> Switching(t) == None
  {
    hide CompleteAll, CompletePeer, CompleteOfPeer, Add, Expel, Emit, Enumerates, Listen;
  }

  lemma EventSwitches(c: Core, e: Event, invalidate: bool)
    requires e.PeerEmits? || e.PeerDestroyed? ==> e.peer in c.members.known
    ensures var f := Happens(c, e, invalidate);
            if e.CallStart? then f.enqueued == [UserStart]
            else if e.CallStop? then f.enqueued == [UserStop]
            else forall t :: t in f.enqueued ==> Switching(t) == None
  {
    hide CompletePeer, TimerRuns, TimesOut, Expel, Emit, Adopt, AcceptNext;
  }

  lemma OthersSwitch(s: Server, e: Event, invalidate: bool)
    requires Enabled(s, e) && !e.RunDispatcher?
    ensures var f := EffectOf(s, e, invalidate);
            && f.core.scope == s.core.scope
            && (if e.CallStart? then f.enqueued == [UserStart]
                else if e.CallStop? then f.enqueued == [UserStop]
                else forall t :: t in f.enqueued ==> Switching(t) == None)
  {
    hide RunIoTask, Happens, MembersAfterIo, MembersAfterEvent, ListeningAfterIo, ListeningAfterEvent, Enumerates,
         MayEmit, Switching;
    match e
    case RunIo(ok, order) =>
      IoFrame(s.core, s.io[0], ok, order);
      IoSwitchesNothing(s.core, s.io[0], ok, order);
    case _ =>
      EventFrame(s.core, e, invalidate);
      EventSwitches(s.core, e, invalidate);
  }

  lemma StepSwitches(s: Server, e: Event, invalidate: bool)
    ensures WillRun(Step(s, e, invalidate)) <==> RunsAfterCall(e, WillRun(s))
  {
    hide RunDispatcherTask, RunIoTask, Happens, Switching, MayEmit, MayBeDestroyed, Enumerates;
    if Enabled(s, e) {
      var f, q := EffectOf(s, e, invalidate), Remaining(s, e).dispatcher;
      AppendArmed(q, f.enqueued, Switching, f.core.scope.running);
      if e.RunDispatcher? {
        DispatcherSwitches(s.core, s.dispatcher[0], e.verified);
        LeavesArmed(f.enqueued, Switching, WillRun(s));
      } else {
        OthersSwitch(s, e, invalidate);
        CallSwitches(e, f.enqueued, WillRun(s));
      }
    }
  }

  lemma CallSwitches(e: Event, enqueued: seq<DispatcherTask>, running: bool)
    requires if e.CallStart? then enqueued == [UserStart]
             else if e.CallStop? then enqueued == [UserStop]
             else forall t :: t in enqueued ==> Switching(t) == None
    ensures WillBeArmed(enqueued, Switching, running) <==> RunsAfterCall(e, running)
  {
    if e.CallStart? || e.CallStop? {
      assert enqueued[1..] == [];
    } else {
      LeavesArmed(enqueued, Switching, running);
    }
  }

  lemma {:induction false} RunSwitches(s: Server, events: seq<Event>, invalidate: bool)
    ensures WillRun(Run(s, events, invalidate)) <==> RunsAfter(events, WillRun(s))
    decreases |events|
  {
    hide Step, WillRun;
    if events != [] {
      StepSwitches(s, events[0], invalidate);
      RunSwitches(Step(s, events[0], invalidate), events[1..], invalidate);
    }
  }

  /** Whatever happened in between, a server with both queues empty is as its user last asked
      for: if that was a start it runs and waits for an accept or for the timer of its next
      bind, and if it was a stop it has let go of everything. */
  lemma ServerEndsAsLastCalled(events: seq<Event>, invalidate: bool)
    ensures var s := Run(InitialServer, events, invalidate);
            s.dispatcher == [] && s.io == [] ==>
              if RunsAfter(events, false) then s.core.scope.running && Waits(s.core)
              else !s.core.scope.running && LetGo(s.core)
  {
    hide Run, RunsAfter, LeadsOn;
    RunSwitches(InitialServer, events, invalidate);
    ServerNeverStalls(events, invalidate);
    StoppedServerIsClean(events, invalidate);
  }

  /** Every other call is queued as it is, and by itself changes nothing. */
  lemma CallsAreQueued(s: Server, p: PeerId, invalidate: bool)
    ensures Step(s, CallRequest(p), invalidate) == s.(io := s.io + [SendRequestTask(p)])
    ensures Step(s, CallClosePeer(p), invalidate) == s.(io := s.io + [ClosePeerRequest(p)])
  {
    assert s.dispatcher + [] == s.dispatcher;
  }
}
