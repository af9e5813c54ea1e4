/** The health check: exactly a failed check of the current probe gives up the listener, the
    user is told, and the server binds again; a check that passes leaves everything as it was. */
module ServerHealth {
  import opened Common
  import opened Queues
  import opened NotificationScope
  import opened Requests
  import opened ServerModel
  import opened ServerProofs
  import opened ServerProgress
  import opened ServerTheorems

  /** A health check may start under this token. */
  predicate MayCheck(c: Core, token: Token) {
    c.scope.IsCurrent(token) && c.listening.acceptor.Some? && c.probing.timeout.None?
  }

  /** The session whose health check fails by this event: its connect failed, its timer
      expired, its answer did not come, or its endpoint could not be made. */
  function FailedCheck(s: Server, e: Event): Option<Token> {
    match e
    case ProbeConnectCompletes(probe, ok) =>
      if !ok && IsCurrentProbe(s.core, probe) then Some(probe.token) else None
    case ProbeTimerRuns(probe, expired) =>
      if expired && IsCurrentProbe(s.core, probe) then Some(probe.token) else None
    case RunIo(ok, _) => if s.io == [] then None else FailedTask(s.core, s.io[0], ok)
    case _ => None
  }

  function FailedTask(c: Core, task: IoTask, ok: bool): Option<Token> {
    match task
    case ProbeResult(probe, answered) => if !answered && IsCurrentProbe(c, probe) then Some(probe.token) else None
    case HealthCheckTask(token) => if !ok && MayCheck(c, token) then Some(token) else None
    case _ => None
  }

  /** No listener and no probe any more, its end on the way to the user, and nothing else touched. */
  predicate ListenerGivenUp(c: Core, f: Effect, token: Token) {
    && f.core.listening == c.listening.(acceptor := None)
    && f.core.probing.timeout.None? && f.core.probing.peer.None?
    && f.core.members == c.members && f.core.requests == c.requests && f.core.log == c.log
    && f.core.scope == c.scope && f.core.retryArmed == c.retryArmed && f.core.checking == c.checking
    && f.enqueued == [Notify(token, Deliver(ListenerClosed))]
    && f.posted == if c.probing.peer.Some? then [ProbeCloseTask(c.probing.peer.value)] else []
  }

  /** Whichever way the current check fails, the listener is given up. */
  lemma FailedCheckClosesListener(s: Server, e: Event, invalidate: bool)
    requires Enabled(s, e) && FailedCheck(s, e).Some?
    ensures var token, t := FailedCheck(s, e).value, Step(s, e, invalidate);
            && ListenerGivenUp(s.core, EffectOf(s, e, invalidate), token)
            && t.core == EffectOf(s, e, invalidate).core
            && t.dispatcher == s.dispatcher + [Notify(token, Deliver(ListenerClosed))]
  {
    hide RunIoTask, Happens, ListenerGivenUp, Enumerates;
    match e {
      case RunIo(ok, order) => FailedTaskGivesUp(s.core, s.io[0], ok, order);
      case _ => FailedEventGivesUp(s, e, invalidate);
    }
    GivenUpIsTold(s.core, EffectOf(s, e, invalidate), FailedCheck(s, e).value);
  }

  lemma GivenUpIsTold(c: Core, f: Effect, token: Token)
    requires ListenerGivenUp(c, f, token)
    ensures f.enqueued == [Notify(token, Deliver(ListenerClosed))]
  {
  }

  lemma FailedTaskGivesUp(c: Core, task: IoTask, ok: bool, order: seq<PeerId>)
    requires FailedTask(c, task, ok).Some?
    ensures ListenerGivenUp(c, RunIoTask(c, task, ok, order), FailedTask(c, task, ok).value)
  {
  }

  lemma FailedEventGivesUp(s: Server, e: Event, invalidate: bool)
    requires Enabled(s, e) && !e.RunIo? && FailedCheck(s, e).Some?
    ensures ListenerGivenUp(s.core, Happens(s.core, e, invalidate), FailedCheck(s, e).value)
  {
  }

  /** Nothing but a failed check, a failed accept and a stop ever gives up a listener. */
  lemma OnlyFailuresCloseListener(s: Server, e: Event, invalidate: bool)
    requires Enabled(s, e) && s.core.listening.acceptor.Some?
    ensures var l := Step(s, e, invalidate).core.listening;
            || l.acceptor == s.core.listening.acceptor
            || (l.acceptor.None?
                && (FailedCheck(s, e).Some?
                    || (e.AcceptCompletes? && e.result.AcceptFails? && s.core.scope.IsCurrent(e.op.token))
                    || (e.RunIo? && s.io[0] == StopTask)))
  {
    hide RunDispatcherTask, RunIoTask, Happens, MayEmit, Enumerates, MembersAfterDispatcher;
    match e
    case RunDispatcher(verified) => DispatcherFrame(s.core, s.dispatcher[0], verified);
    case RunIo(ok, order) => OnlyFailedTasksClose(s.core, s.io[0], ok, order);
    case _ => OnlyFailedEventsClose(s, e, invalidate);
  }

  lemma OnlyFailedTasksClose(c: Core, task: IoTask, ok: bool, order: seq<PeerId>)
    ensures var l := RunIoTask(c, task, ok, order).core.listening;
            || c.listening.acceptor.None? || l.acceptor == c.listening.acceptor
            || (l.acceptor.None? && (task == StopTask || FailedTask(c, task, ok).Some?))
  {
    hide CompleteAll, CompletePeer, CompleteOfPeer, Add, Expel, Emit, Enumerates, Listen, PeerCloseTasks;
  }

  lemma OnlyFailedEventsClose(s: Server, e: Event, invalidate: bool)
    requires Enabled(s, e) && !e.RunDispatcher? && !e.RunIo?
    ensures var l := Happens(s.core, e, invalidate).core.listening;
            || l.acceptor == s.core.listening.acceptor
            || (l.acceptor.None?
                && (FailedCheck(s, e).Some?
                    || (e.AcceptCompletes? && e.result.AcceptFails? && s.core.scope.IsCurrent(e.op.token))))
  {
    hide CompletePeer, TimerRuns, TimesOut, Expel, Emit, Adopt, MayEmit;
  }

  // ---------------------------------------------------------------- a passing check

  /** A check under an old token, without a listener or beside another one does nothing. */
  lemma OtherChecksDoNothing(s: Server, ok: bool, order: seq<PeerId>, invalidate: bool)
    requires Enabled(s, RunIo(ok, order)) && s.io[0].HealthCheckTask? && !MayCheck(s.core, s.io[0].token)
    ensures Step(s, RunIo(ok, order), invalidate) == s.(io := s.io[1..])
  {
  }

  /** A check starts with a fresh probe: its timer and its connect are outstanding. */
  lemma CheckStarts(s: Server, order: seq<PeerId>, invalidate: bool)
    requires Enabled(s, RunIo(true, order)) && s.io[0].HealthCheckTask? && MayCheck(s.core, s.io[0].token)
    ensures var t := Step(s, RunIo(true, order), invalidate);
            var probe := Probe(s.core.probing.nextId, s.io[0].token);
            && IsCurrentProbe(t.core, probe) && t.core.probing.nextId == probe.id + 1
            && probe in t.core.probing.timers && probe in t.core.probing.connects
            && t.core == s.core.(probing := t.core.probing) && t.dispatcher == s.dispatcher && t.io == s.io[1..]
  {
  }

  /** A connected probe becomes the probe peer; the answer is still awaited. */
  lemma ConnectedProbeAwaitsAnswer(s: Server, probe: Probe, invalidate: bool)
    requires Enabled(s, ProbeConnectCompletes(probe, true)) && IsCurrentProbe(s.core, probe)
    ensures var t := Step(s, ProbeConnectCompletes(probe, true), invalidate);
            && IsCurrentProbe(t.core, probe) && t.core.probing.peer == Some(probe)
            && probe in t.core.probing.made && probe in t.core.probing.open
            && t.core.probing.cancelled == s.core.probing.cancelled && t.core.probing.timers == s.core.probing.timers
            && t.core == s.core.(probing := t.core.probing) && t.dispatcher == s.dispatcher && t.io == s.io
  {
  }

  /** What a probe peer of the running session signals reaches the I/O thread as it is; one of
      an earlier session goes unnoticed. */
  lemma ProbeSlotReports(s: Server, verified: bool, invalidate: bool)
    requires s.dispatcher != [] && s.dispatcher[0].ProbeSlot?
    ensures var t, slot := Step(s, RunDispatcher(verified), invalidate), s.dispatcher[0];
            && t.io == s.io + (if s.core.scope.IsCurrent(slot.probe.token) then [ProbeResult(slot.probe, slot.answered)]
                               else [])
            && t.core == s.core && t.dispatcher == s.dispatcher[1..]
  {
  }

  /** An answered check cancels its timer and closes its peer; the listener stays. */
  lemma AnsweredCheckEnds(s: Server, ok: bool, order: seq<PeerId>, invalidate: bool)
    requires Enabled(s, RunIo(ok, order)) && s.io[0].ProbeResult? && s.io[0].answered
    requires IsCurrentProbe(s.core, s.io[0].probe)
    ensures var t, k := Step(s, RunIo(ok, order), invalidate), s.core.probing;
            && t.core.probing.timeout.None? && t.core.probing.peer.None? && s.io[0].probe in t.core.probing.cancelled
            && t.core == s.core.(probing := t.core.probing) && t.dispatcher == s.dispatcher
            && t.io == s.io[1..] + if k.peer.Some? then [ProbeCloseTask(k.peer.value)] else []
  {
  }

  /** A whole check, from the timer to what becomes of the probe's report. */
  function WholeCheck(c: Core, report: Event, order: seq<PeerId>): seq<Event> {
    var probe := Probe(c.probing.nextId, c.scope.generation);
    [HealthCheckTimer, RunDispatcher(true), RunIo(true, order), ProbeConnectCompletes(probe, true),
     report, RunDispatcher(true), RunIo(true, order)]
  }

  /** The check up to its connect. */
  lemma CheckConnects(s: Server, order: seq<PeerId>, invalidate: bool)
    requires s.dispatcher == [] && s.io == [] && s.core.checking && MayCheck(s.core, s.core.scope.generation)
    ensures var probe := Probe(s.core.probing.nextId, s.core.scope.generation);
            var t := Run(s, [HealthCheckTimer, RunDispatcher(true), RunIo(true, order),
                             ProbeConnectCompletes(probe, true)], invalidate);
            && t == Server(s.core.(probing := t.core.probing), [], [])
            && IsCurrentProbe(t.core, probe) && t.core.probing.peer == Some(probe) && probe in t.core.probing.made
            && probe in t.core.probing.open
  {
    hide Run, Step;
    var probe := Probe(s.core.probing.nextId, s.core.scope.generation);
    var timed := Step(s, HealthCheckTimer, invalidate);
    var posted := Step(timed, RunDispatcher(true), invalidate);
    var started := Step(posted, RunIo(true, order), invalidate);
    TimerAsks(s, invalidate);
    CheckStarts(posted, order, invalidate);
    ConnectedProbeAwaitsAnswer(started, probe, invalidate);
    RunThree(s, HealthCheckTimer, RunDispatcher(true), RunIo(true, order), invalidate);
    RunOne(started, ProbeConnectCompletes(probe, true), invalidate);
    var first, last := [HealthCheckTimer, RunDispatcher(true), RunIo(true, order)], ProbeConnectCompletes(probe, true);
    RunSplit(s, first, [last], invalidate);
    assert first + [last] == [HealthCheckTimer, RunDispatcher(true), RunIo(true, order), last];
  }

  /** The health-check timer asks for a check under the token of now. */
  lemma TimerAsks(s: Server, invalidate: bool)
    requires s.dispatcher == [] && s.core.checking
    ensures var t := Step(Step(s, HealthCheckTimer, invalidate), RunDispatcher(true), invalidate);
            t == s.(io := s.io + [HealthCheckTask(s.core.scope.generation)])
  {
  }

  /** How the probe comes to report: it signals, or it closes by itself. */
  predicate Reports(c: Core, e: Event, probe: Probe, answered: bool) {
    && probe in c.probing.made
    && (e == ProbeEmits(probe, answered) || (e == ProbeCloseRuns(probe) && probe in c.probing.open && !answered))
  }

  /** The check from the probe's report on. */
  lemma ProbeReports(s: Server, e: Event, probe: Probe, answered: bool, order: seq<PeerId>, invalidate: bool)
    requires s.dispatcher == [] && s.io == [] && IsCurrentProbe(s.core, probe) && s.core.probing.peer == Some(probe)
    requires Reports(s.core, e, probe, answered)
    ensures var t := Run(s, [e, RunDispatcher(true), RunIo(true, order)], invalidate);
            && t.core.probing.timeout.None? && t.core.probing.peer.None? && t.io == [ProbeCloseTask(probe)]
            && t.core == s.core.(probing := t.core.probing,
                                 listening := s.core.listening.(acceptor := t.core.listening.acceptor))
            && (if answered then t.core.listening == s.core.listening && t.dispatcher == []
                else t.core.listening.acceptor.None? && t.dispatcher == [Notify(probe.token, Deliver(ListenerClosed))])
  {
    hide Run, Step, Reports;
    var emitted := Step(s, e, invalidate);
    var posted := Step(emitted, RunDispatcher(true), invalidate);
    SignalIsQueued(s, e, probe, answered, invalidate);
    ProbeSlotReports(emitted, true, invalidate);
    if answered {
      AnsweredCheckEnds(posted, true, order, invalidate);
    } else {
      FailedCheckClosesListener(posted, RunIo(true, order), invalidate);
      PoppedIo(posted, order, invalidate);
    }
    RunThree(s, e, RunDispatcher(true), RunIo(true, order), invalidate);
  }

  lemma SignalIsQueued(s: Server, e: Event, probe: Probe, answered: bool, invalidate: bool)
    requires Reports(s.core, e, probe, answered)
    ensures var t := Step(s, e, invalidate);
            && t.dispatcher == s.dispatcher + [ProbeSlot(probe, answered)] && t.io == s.io
            && t.core == s.core.(probing := t.core.probing)
            && t.core.probing == s.core.probing.(open := t.core.probing.open)
  {
  }

  lemma PoppedIo(s: Server, order: seq<PeerId>, invalidate: bool)
    requires Enabled(s, RunIo(true, order))
    ensures Step(s, RunIo(true, order), invalidate).io == s.io[1..] + EffectOf(s, RunIo(true, order), invalidate).posted
  {
    hide RunIoTask, Enumerates;
  }

  /** Telling `bound` starts the timer and asks for a first check at once. */
  lemma BoundIsChecked(s: Server, verified: bool, invalidate: bool)
    requires s.dispatcher == [Notify(s.core.scope.generation, Deliver(Bound))] && s.core.scope.running
    ensures var g := s.core.scope.generation;
            var t := Run(s, [RunDispatcher(verified), RunDispatcher(verified), RunDispatcher(verified)], invalidate);
            && t.core == s.core.(log := s.core.log + [Entry(OfSession(Bound), g)], checking := true)
            && t.dispatcher == [] && t.io == s.io + [HealthCheckTask(g)]
  {
    hide Run;
    var e := RunDispatcher(verified);
    var told := Step(s, e, invalidate);
    assert told.dispatcher == [StartChecks] && told.io == s.io;
    var started := Step(told, e, invalidate);
    assert started.dispatcher == [RunCheck] && started.io == s.io;
    RunThree(s, e, e, e, invalidate);
  }

  /** From any idle accepting server: a check whose probe is answered changes nothing but the
      probing itself; one whose probe fails, or is closed by the other end, gives up the
      listener and says so. */
  lemma CheckDecidesOnAnswer(s: Server, report: Event, answered: bool, order: seq<PeerId>, invalidate: bool)
    requires s.dispatcher == [] && s.io == [] && s.core.checking && MayCheck(s.core, s.core.scope.generation)
    requires var probe := Probe(s.core.probing.nextId, s.core.scope.generation);
             report == ProbeEmits(probe, answered) || (report == ProbeCloseRuns(probe) && !answered)
    ensures var t, token := Run(s, WholeCheck(s.core, report, order), invalidate), s.core.scope.generation;
            && t.core.probing.timeout.None? && t.core.probing.peer.None?
            && t.core == s.core.(probing := t.core.probing,
                                 listening := s.core.listening.(acceptor := t.core.listening.acceptor))
            && (if answered then t.core.listening == s.core.listening && t.dispatcher == []
                else t.core.listening.acceptor.None? && t.dispatcher == [Notify(token, Deliver(ListenerClosed))])
  {
    hide Run, Step;
    var probe := Probe(s.core.probing.nextId, s.core.scope.generation);
    var first := [HealthCheckTimer, RunDispatcher(true), RunIo(true, order), ProbeConnectCompletes(probe, true)];
    var second := [report, RunDispatcher(true), RunIo(true, order)];
    CheckConnects(s, order, invalidate);
    ProbeReports(Run(s, first, invalidate), report, probe, answered, order, invalidate);
    RunSplit(s, first, second, invalidate);
    assert WholeCheck(s.core, report, order) == first + second;
  }

  /** A posted close of a probe peer closes it, and it signals its end exactly if it was open. */
  lemma PostedProbeCloseCloses(s: Server, ok: bool, order: seq<PeerId>, invalidate: bool)
    requires Enabled(s, RunIo(ok, order)) && s.io[0].ProbeCloseTask?
    ensures var t, probe := Step(s, RunIo(ok, order), invalidate), s.io[0].probe;
            && probe !in t.core.probing.open && t.io == s.io[1..]
            && t.core == s.core.(probing := s.core.probing.(open := s.core.probing.open - {probe}))
            && t.dispatcher == s.dispatcher + if probe in s.core.probing.open then [ProbeSlot(probe, false)] else []
  {
    if s.io[0].probe !in s.core.probing.open {
      assert s.core.probing.open - {s.io[0].probe} == s.core.probing.open;
    }
  }

  /** A connect of a probe that is not the current one ends with its timer cancelled, and
      nothing else happens. */
  lemma OldConnectIsDropped(s: Server, probe: Probe, ok: bool, invalidate: bool)
    requires Enabled(s, ProbeConnectCompletes(probe, ok)) && !IsCurrentProbe(s.core, probe)
    ensures var t, k := Step(s, ProbeConnectCompletes(probe, ok), invalidate), s.core.probing;
            && t.core == s.core.(probing := k.(connects := k.connects - {probe}, cancelled := k.cancelled + {probe}))
            && t.dispatcher == s.dispatcher && t.io == s.io
  {
    assert s.dispatcher + [] == s.dispatcher && s.io + [] == s.io;
  }

  // --------------------------------------------------------------- being told

  /** A note queued in generation `g` was told after the first `n` entries, is still queued,
      or its session is over. */
  ghost predicate TellsLater(s: Server, g: Token, note: SessionNote, n: nat) {
    || g < s.core.scope.generation
    || (s.core.scope.IsCurrent(g)
        && (Notify(g, Deliver(note)) in s.dispatcher || ToldSince(s.core.log, Entry(OfSession(note), g), n)))
  }

  ghost predicate ToldSince(log: seq<Entry>, entry: Entry, n: nat) {
    exists k :: n <= k < |log| && log[k] == entry
  }

  lemma LogGrows(c: Core, task: DispatcherTask, verified: bool)
    ensures c.log <= RunDispatcherTask(c, task, verified).core.log
    ensures task.Notify? && task.notification.Deliver? && c.scope.IsCurrent(task.token) ==>
              RunDispatcherTask(c, task, verified).core.log
              == c.log + [Entry(OfSession(task.notification.session), task.token)]
  {
    hide Judge, Settle;
  }

  lemma StepTellsLater(s: Server, e: Event, invalidate: bool, g: Token, note: SessionNote, n: nat)
    requires TellsLater(s, g, note, n) && n <= |s.core.log| && Enabled(s, e)
    ensures TellsLater(Step(s, e, invalidate), g, note, n) && s.core.log <= Step(s, e, invalidate).core.log
  {
    hide RunDispatcherTask, RunIoTask, Happens, MayEmit, Enumerates, MembersAfterDispatcher, MembersAfterIo,
         MembersAfterEvent, ListeningAfterIo, ListeningAfterEvent;
    var t, entry := Step(s, e, invalidate), Entry(OfSession(note), g);
    StepQueues(s, e, invalidate);
    match e {
      case RunDispatcher(verified) =>
        DispatcherFrame(s.core, s.dispatcher[0], verified);
        LogGrows(s.core, s.dispatcher[0], verified);
        if s.dispatcher[0] == Notify(g, Deliver(note)) && s.core.scope.IsCurrent(g) {
          assert t.core.log[|s.core.log|] == entry;
        }
      case RunIo(ok, order) => IoFrame(s.core, s.io[0], ok, order);
      case _ => EventFrame(s.core, e, invalidate);
    }
    if k :| n <= k < |s.core.log| && s.core.log[k] == entry {
      assert t.core.log[k] == entry;
    }
  }

  lemma {:induction false} RunTellsLater(
    s: Server, more: seq<Event>, invalidate: bool, g: Token, note: SessionNote, n: nat
  )
    requires TellsLater(s, g, note, n) && n <= |s.core.log|
    ensures TellsLater(Run(s, more, invalidate), g, note, n)
    decreases |more|
  {
    hide TellsLater, Step, Enabled;
    if more != [] {
      if Enabled(s, more[0]) {
        StepTellsLater(s, more[0], invalidate, g, note, n);
      } else {
        DisabledStutters(s, more[0], invalidate);
      }
      RunTellsLater(Step(s, more[0], invalidate), more[1..], invalidate, g, note, n);
    }
  }

  /** Whatever the server queues for its user is told: in any continuation of the same
      session, once the dispatcher has caught up, under the token it was queued with. */
  lemma QueuedNoteIsTold(s: Server, more: seq<Event>, invalidate: bool, g: Token, note: SessionNote)
    requires s.core.scope.IsCurrent(g) && Notify(g, Deliver(note)) in s.dispatcher
    ensures var t := Run(s, more, invalidate);
            t.core.scope.IsCurrent(g) && t.dispatcher == [] ==>
              ToldSince(t.core.log, Entry(OfSession(note), g), |s.core.log|)
  {
    hide Run;
    RunTellsLater(s, more, invalidate, g, note, |s.core.log|);
  }

  // ------------------------------------------------------------ binding again

  /** Acceptors are numbered in the order they are made. */
  predicate NewerAcceptor(l: Listening, n: nat) {
    l.nextId >= n && (l.acceptor.Some? ==> l.acceptor.value.id >= n)
  }

  lemma StepMakesNewer(s: Server, e: Event, invalidate: bool, n: nat)
    requires NewerAcceptor(s.core.listening, n) && Enabled(s, e)
    ensures NewerAcceptor(Step(s, e, invalidate).core.listening, n)
  {
    hide RunDispatcherTask, RunIoTask, Happens, MayEmit, Enumerates, MembersAfterDispatcher, MembersAfterIo,
         MembersAfterEvent;
    match e
    case RunDispatcher(verified) => DispatcherFrame(s.core, s.dispatcher[0], verified);
    case RunIo(ok, order) => IoFrame(s.core, s.io[0], ok, order);
    case _ => EventFrame(s.core, e, invalidate);
  }

  lemma {:induction false} RunMakesNewer(s: Server, more: seq<Event>, invalidate: bool, n: nat)
    requires NewerAcceptor(s.core.listening, n)
    ensures NewerAcceptor(Run(s, more, invalidate).core.listening, n)
    decreases |more|
  {
    hide Step, Enabled, NewerAcceptor;
    if more != [] {
      if Enabled(s, more[0]) {
        StepMakesNewer(s, more[0], invalidate, n);
      } else {
        DisabledStutters(s, more[0], invalidate);
      }
      RunMakesNewer(Step(s, more[0], invalidate), more[1..], invalidate, n);
    }
  }

  /** A failed health check is noticed and mended: in any continuation of the same session
      that leaves both queues empty, the user was told that the listener closed, and the
      server waits on an acceptor made since, or for the timer of its next bind. */
  lemma FailedCheckIsMended(events: seq<Event>, e: Event, more: seq<Event>, invalidate: bool)
    requires var s := Run(InitialServer, events, invalidate); Enabled(s, e) && FailedCheck(s, e).Some?
    ensures var s := Run(InitialServer, events, invalidate);
            var g, t := FailedCheck(s, e).value, Run(Step(s, e, invalidate), more, invalidate);
            t.core.scope.IsCurrent(g) && t.dispatcher == [] && t.io == [] ==>
              && ToldSince(t.core.log, Entry(OfSession(ListenerClosed), g), |s.core.log|)
              && (|| t.core.retryArmed
                  || (t.core.listening.acceptor.Some? && t.core.listening.acceptor.value.id >= s.core.listening.nextId
                      && Accept(t.core.listening.acceptor.value, g) in t.core.listening.accepts))
  {
    hide Run, Step, Enabled;
    var s := Run(InitialServer, events, invalidate);
    var g, u := FailedCheck(s, e).value, Step(s, e, invalidate);
    FailedCheckClosesListener(s, e, invalidate);
    QueuedNoteIsTold(u, more, invalidate, g, ListenerClosed);
    RunMakesNewer(u, more, invalidate, s.core.listening.nextId);
    RunOne(s, e, invalidate);
    RunSplit(InitialServer, events, [e], invalidate);
    RunSplit(InitialServer, events + [e], more, invalidate);
    ServerNeverStalls(events + [e] + more, invalidate);
  }
}
