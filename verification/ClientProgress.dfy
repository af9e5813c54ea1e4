/** The client never stalls: while it runs, something that leads to another
    connection attempt is always connecting, connected, queued or armed. */
module ClientProgress {
  import opened Common
  import opened Queues
  import opened NotificationScope
  import opened Requests
  import opened ClientModel
  import opened ClientProofs

  // ------------------------------------------------------------------- alive

  /** A current connecting socket is waiting for its connect, its verification,
      or the handling of the verdict; a peer is open, or its close is on its way. */
  ghost predicate ConnectionsAlive(s: Client) {
    var k, p := s.core.session.connecting, s.core.session.peer;
    && (k.Some? && k.value.token == s.core.scope.generation ==>
          || k.value in s.core.session.connects
          || Notify(k.value.token, Verify(k.value)) in s.dispatcher
          || HandleConnected(k.value, true) in s.io
          || HandleConnected(k.value, false) in s.io)
    && (p.Some? ==>
          || p.value in s.core.session.live
          || SignalSlot(p.value, Closing) in s.dispatcher
          || ForwardSignal(p.value, Closing) in s.io)
  }

  lemma DispatcherKeepsAlive(s: Client, verified: bool, invalidate: bool)
    requires ConnectionsAlive(s) && SessionSound(s.core) && s.dispatcher != []
    ensures ConnectionsAlive(Step(s, RunDispatcher(verified), invalidate))
  {
    hide RunDispatcherTask;
    StepQueues(s, RunDispatcher(verified), invalidate);
    DispatcherEffectLog(s.core, s.dispatcher[0], verified);
    DispatcherEffectAlive(s.core, s.dispatcher[0], verified);
  }

  lemma DispatcherEffectAlive(c: Core, task: DispatcherTask, verified: bool)
    requires SessionSound(c)
    ensures var f := RunDispatcherTask(c, task, verified);
            && c.scope.generation <= f.core.scope.generation
            && (task.SignalSlot? ==> f.posted == [ForwardSignal(task.peer, task.signal)])
            && (forall k: Handle :: task == Notify(k.token, Verify(k)) && c.scope.IsCurrent(k.token) ==>
                  f.posted == [HandleConnected(k, verified)])
  {
  }

  lemma IoEffectAlive(c: Core, task: IoTask, endpointOk: bool)
    ensures var f := RunIoTask(c, task, endpointOk);
            && f.core.scope == c.scope
            && (f.core.session.connecting.Some? && f.core.session.connecting != c.session.connecting ==>
                  f.core.session.connecting.value in f.core.session.connects)
            && c.session.connects <= f.core.session.connects
            && (task.HandleConnected? ==> f.core.session.connecting != Some(task.socket))
            && (f.core.session.peer.Some? && f.core.session.peer != c.session.peer ==>
                  f.core.session.peer.value in f.core.session.live)
            && (f.core.session.peer.Some? ==> task != ForwardSignal(f.core.session.peer.value, Closing))
            && (forall p :: p in c.session.live && p !in f.core.session.live ==> f.enqueued == [SignalSlot(p, Closing)])
  {
    hide CompleteAll, Complete, Add;
  }

  lemma IoKeepsAlive(s: Client, endpointOk: bool, invalidate: bool)
    requires ConnectionsAlive(s) && s.io != []
    ensures ConnectionsAlive(Step(s, RunIo(endpointOk), invalidate))
  {
    hide RunIoTask;
    StepQueues(s, RunIo(endpointOk), invalidate);
    IoEffectAlive(s.core, s.io[0], endpointOk);
  }

  /** The connect of the socket still connecting has just completed. */
  predicate Finished(c: Core, f: Effect, k: Handle) {
    k in c.session.connects && k !in f.core.session.connects && f.core.session.connecting == Some(k)
  }

  lemma EventEffectAlive(c: Core, e: Event, invalidate: bool)
    requires SessionSound(c)
    ensures var f := Happens(c, e, invalidate);
            && f.core.scope == c.scope
            && Kept(c.session.connecting, f.core.session.connecting)
            && Kept(c.session.peer, f.core.session.peer)
            && (forall k :: Finished(c, f, k) && k.token == c.scope.generation ==>
                  f.enqueued == [Notify(k.token, Verify(k))])
            && (forall p :: p in c.session.live && p !in f.core.session.live ==> f.enqueued == [SignalSlot(p, Closing)])
  {
    hide CompleteAll, TimerRuns, TimesOut;
  }

  lemma EventKeepsAlive(s: Client, e: Event, invalidate: bool)
    requires ConnectionsAlive(s) && SessionSound(s.core) && Enabled(s, e) && !e.RunDispatcher? && !e.RunIo?
    ensures ConnectionsAlive(Step(s, e, invalidate))
  {
    hide Happens;
    StepQueues(s, e, invalidate);
    EventEffectAlive(s.core, e, invalidate);
  }

  // ---------------------------------------------------------------- unclosed

  /** A peer whose close has not run is the current one or has its close posted,
      and `closed` is only ever signalled by a peer whose close ran. */
  ghost predicate NoPeerUnclosed(s: Client) {
    && (forall p :: p in s.core.session.live ==> s.core.session.peer == Some(p) || ClosePeerTask(p) in s.io)
    && (forall task :: task in s.dispatcher && task.SignalSlot? && task.signal.Closing? ==>
          task.peer !in s.core.session.live)
    && (forall task :: task in s.io && task.ForwardSignal? && task.signal.Closing? ==>
          task.peer !in s.core.session.live)
  }

  /** How an effect changes the live peers and drops the current one. */
  ghost predicate EffectCloses(c: Core, f: Effect) {
    && (forall p :: p in f.core.session.live ==> p in c.session.live || f.core.session.peer == Some(p))
    && (forall p :: p in f.core.session.live ==> p in c.session.live || (p !in c.session.peers))
    && (forall task :: task in f.enqueued && task.SignalSlot? && task.signal.Closing? ==>
          task.peer !in f.core.session.live)
  }

  /** The effect gives up a peer whose close has not run. */
  predicate DroppedLive(c: Core, f: Effect) {
    c.session.peer.Some? && c.session.peer.value in f.core.session.live && f.core.session.peer != c.session.peer
  }

  lemma DispatcherKeepsClosed(s: Client, verified: bool, invalidate: bool)
    requires NoPeerUnclosed(s) && s.dispatcher != []
    ensures NoPeerUnclosed(Step(s, RunDispatcher(verified), invalidate))
  {
    hide RunDispatcherTask;
    StepQueues(s, RunDispatcher(verified), invalidate);
    DispatcherEffectLog(s.core, s.dispatcher[0], verified);
    DispatcherEffectCloses(s.core, s.dispatcher[0], verified);
  }

  lemma DispatcherEffectCloses(c: Core, task: DispatcherTask, verified: bool)
    ensures var f := RunDispatcherTask(c, task, verified);
            && (forall t :: t in f.enqueued ==> !t.SignalSlot?)
            && (forall t :: t in f.posted && t.ForwardSignal? ==> task == SignalSlot(t.peer, t.signal))
  {
  }

  lemma IoEffectCloses(c: Core, task: IoTask, endpointOk: bool)
    requires CoreHandlesKnown(c)
    requires task.ForwardSignal? && task.signal.Closing? ==> task.peer !in c.session.live
    ensures var f := RunIoTask(c, task, endpointOk);
            && EffectCloses(c, f)
            && (forall t :: t in f.posted ==> !t.ForwardSignal?)
            && (SessionSound(c) && DroppedLive(c, f) ==> ClosePeerTask(c.session.peer.value) in f.posted)
            && (task.ClosePeerTask? ==> task.peer !in f.core.session.live)
  {
    hide CompleteAll, Complete, Add;
  }

  lemma IoKeepsClosed(s: Client, endpointOk: bool, invalidate: bool)
    requires NoPeerUnclosed(s) && SessionSound(s.core) && HandlesKnown(s) && s.io != []
    ensures NoPeerUnclosed(Step(s, RunIo(endpointOk), invalidate))
  {
    hide RunIoTask, SessionSound;
    StepQueues(s, RunIo(endpointOk), invalidate);
    IoEffectCloses(s.core, s.io[0], endpointOk);
  }

  lemma EventEffectCloses(c: Core, e: Event, invalidate: bool)
    requires CoreHandlesKnown(c) && (e.PeerEmits? ==> !e.signal.Closing?)
    ensures var f := Happens(c, e, invalidate);
            && EffectCloses(c, f)
            && (forall t :: t in f.posted ==> !t.ForwardSignal?)
            && (DroppedLive(c, f) ==> ClosePeerTask(c.session.peer.value) in f.posted)
            && f.core.session.live <= c.session.live
  {
    hide CompleteAll, TimerRuns, TimesOut;
  }

  lemma EventKeepsClosed(s: Client, e: Event, invalidate: bool)
    requires NoPeerUnclosed(s) && HandlesKnown(s) && Enabled(s, e) && !e.RunDispatcher? && !e.RunIo?
    ensures NoPeerUnclosed(Step(s, e, invalidate))
  {
    hide Happens;
    StepQueues(s, e, invalidate);
    EventEffectCloses(s.core, e, invalidate);
  }

  // ---------------------------------------------------------------- progress

  /** What a queued task does to the reconnect timer. */
  function Rearms(task: DispatcherTask): Option<bool> {
    if task.DebounceReconnect? then Some(true) else if task.CancelReconnect? then Some(false) else None
  }

  /** A notification that, delivered under generation `g`, schedules a reconnect. */
  predicate Retries(task: DispatcherTask, g: Token) {
    && task.Notify? && task.token == g
    && (task.notification.Reschedule? || (task.notification.Deliver? && task.notification.note.Reschedules()))
  }

  predicate Current(k: Option<Handle>, g: Token) {
    k.Some? && k.value.token == g
  }

  /** What leads the client on: a current connecting socket or peer, a queued
      connect or invalidation, a notification that schedules a retry, or the timer. */
  ghost predicate LeadsOn(s: Client) {
    var g := s.core.scope.generation;
    || Current(s.core.session.connecting, g)
    || Current(s.core.session.peer, g)
    || ConnectTask(g) in s.io
    || InvalidateTask(g) in s.io
    || (exists task :: task in s.dispatcher && Retries(task, g))
    || WillBeArmed(s.dispatcher, Rearms, s.core.armed)
  }

  ghost predicate NeverStalled(s: Client) {
    s.core.scope.running ==> LeadsOn(s)
  }

  lemma DispatcherEffectLeads(c: Core, task: DispatcherTask, verified: bool)
    ensures var f := RunDispatcherTask(c, task, verified);
            var g := f.core.scope.generation;
            f.core.scope.running ==>
              || f.posted == [ConnectTask(g)]
              || f.posted == [InvalidateTask(g)]
              || (f.core.scope == c.scope && f.core.armed == ArmedBy(Rearms(task), c.armed)
                  && (f.enqueued == [] || f.enqueued == [DebounceReconnect])
                  && (Retries(task, g) ==> f.enqueued == [DebounceReconnect]))
  {
  }

  lemma DispatcherNeverStalls(s: Client, verified: bool, invalidate: bool)
    requires NeverStalled(s) && s.dispatcher != []
    ensures NeverStalled(Step(s, RunDispatcher(verified), invalidate))
  {
    hide RunDispatcherTask;
    var t := Step(s, RunDispatcher(verified), invalidate);
    var f := RunDispatcherTask(s.core, s.dispatcher[0], verified);
    var g := s.core.scope.generation;
    StepQueues(s, RunDispatcher(verified), invalidate);
    DispatcherEffectLog(s.core, s.dispatcher[0], verified);
    DispatcherEffectLeads(s.core, s.dispatcher[0], verified);
    if f.core.scope.running && f.core.scope == s.core.scope && |f.enqueued| <= 1 {
      AppendArmed(s.dispatcher[1..], f.enqueued, Rearms, f.core.armed);
      if task :| task in s.dispatcher && Retries(task, g) {
        assert task == s.dispatcher[0] || task in t.dispatcher;
      }
    }
  }

  lemma IoEffectLeads(c: Core, task: IoTask, endpointOk: bool)
    requires Cleans(task) ==>
      !Current(c.session.connecting, c.scope.generation) && !Current(c.session.peer, c.scope.generation)
    requires task == ConnectTask(c.scope.generation) ==>
               (c.session.connecting.Some? ==> Current(c.session.connecting, c.scope.generation))
               && (c.session.peer.Some? ==> Current(c.session.peer, c.scope.generation))
    ensures var f := RunIoTask(c, task, endpointOk);
            var g := c.scope.generation;
            var before := Current(c.session.connecting, g) || Current(c.session.peer, g);
            && |f.enqueued| <= 1 && (f.enqueued != [] ==> !f.enqueued[0].CancelReconnect?)
            && f.core.armed == c.armed && f.core.scope == c.scope
            && (c.scope.running && (before || task == ConnectTask(g) || task == InvalidateTask(g)) ==>
                  || Current(f.core.session.connecting, g) || Current(f.core.session.peer, g)
                  || (f.enqueued != [] && Retries(f.enqueued[0], g)))
  {
    hide CompleteAll, Complete, Add;
  }

  lemma CleanupSparesCurrent(s: Client)
    requires CleanupsInOrder(s) && SessionSound(s.core) && s.io != []
    ensures var g := s.core.scope.generation;
            var k, p := s.core.session.connecting, s.core.session.peer;
            && (Cleans(s.io[0]) ==> !Current(k, g) && !Current(p, g))
            && (s.io[0] == ConnectTask(g) ==> (k.Some? ==> Current(k, g)) && (p.Some? ==> Current(p, g)))
  {
  }

  lemma IoNeverStalls(s: Client, endpointOk: bool, invalidate: bool)
    requires NeverStalled(s) && CleanupsInOrder(s) && SessionSound(s.core) && s.io != []
    ensures NeverStalled(Step(s, RunIo(endpointOk), invalidate))
  {
    hide RunIoTask, CleanupsInOrder, SessionSound;
    var t := Step(s, RunIo(endpointOk), invalidate);
    var f := RunIoTask(s.core, s.io[0], endpointOk);
    CleanupSparesCurrent(s);
    StepQueues(s, RunIo(endpointOk), invalidate);
    IoEffectLeads(s.core, s.io[0], endpointOk);
    AppendArmed(s.dispatcher, f.enqueued, Rearms, s.core.armed);
    if s.core.scope.running {
      if task :| task in s.dispatcher && Retries(task, s.core.scope.generation) {
        assert task in t.dispatcher;
      }
      if f.enqueued != [] {
        assert f.enqueued[0] in t.dispatcher;
      }
    }
  }

  lemma EventEffectLeads(c: Core, e: Event, invalidate: bool)
    requires SessionSound(c) && RequestsOnPeer(c)
    ensures var f := Happens(c, e, invalidate);
            var g := c.scope.generation;
            var before := Current(c.session.connecting, g) || Current(c.session.peer, g);
            && |f.enqueued| <= 1 && (f.enqueued != [] ==> !f.enqueued[0].CancelReconnect?)
            && f.core.scope == c.scope
            && (c.armed != f.core.armed && c.scope.running ==> f.posted == [ConnectTask(g)])
            && (before ==>
                  || Current(f.core.session.connecting, g) || Current(f.core.session.peer, g)
                  || (f.enqueued != [] && Retries(f.enqueued[0], g)))
  {
    hide CompleteAll, TimerRuns, Conserved;
  }

  lemma EventNeverStalls(s: Client, e: Event, invalidate: bool)
    requires NeverStalled(s) && SessionSound(s.core) && RequestsOnPeer(s.core)
    requires Enabled(s, e) && !e.RunDispatcher? && !e.RunIo?
    ensures NeverStalled(Step(s, e, invalidate))
  {
    hide Happens, SessionSound, RequestsOnPeer;
    var t := Step(s, e, invalidate);
    var f := Happens(s.core, e, invalidate);
    StepQueues(s, e, invalidate);
    EventEffectLeads(s.core, e, invalidate);
    AppendArmed(s.dispatcher, f.enqueued, Rearms, s.core.armed);
    if s.core.scope.running {
      if task :| task in s.dispatcher && Retries(task, s.core.scope.generation) {
        assert task in t.dispatcher;
      }
      if f.enqueued != [] {
        assert f.enqueued[0] in t.dispatcher;
      }
    }
  }
}
