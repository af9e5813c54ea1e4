/** The server never stalls: while it runs, it accepts, or something that leads to
    another bind is queued or armed. */
module ServerProgress {
  import opened Common
  import opened Queues
  import opened NotificationScope
  import opened Requests
  import opened ServerModel
  import opened ServerProofs

  // ---------------------------------------------------------------- cleanups

  predicate StartsSession(task: IoTask, g: Token) {
    task == BindTask(g) || task == HealthCheckTask(g)
  }

  /** Every queued stop runs before anything that starts generation `g`. */
  ghost predicate StopsFirst(io: seq<IoTask>, g: Token) {
    forall i, j :: 0 <= i < j < |io| && StartsSession(io[i], g) ==> io[j] != StopTask
  }

  predicate OfGeneration(m: Members, p: PeerId, g: Token) {
    p in m.known && m.known[p].token == g
  }

  predicate CurrentAcceptor(c: Core) {
    c.listening.acceptor.Some? && c.listening.acceptor.value.token == c.scope.generation
  }

  predicate CurrentTimeout(c: Core) {
    c.probing.timeout.Some? && c.probing.timeout.value.token == c.scope.generation
  }

  /** The current generation has not started yet. */
  ghost predicate NothingCurrent(c: Core) {
    && !CurrentAcceptor(c) && !CurrentTimeout(c)
    && (forall op :: op in c.listening.accepts ==> op.token != c.scope.generation)
    && (forall p :: p in c.members.peers ==> !OfGeneration(c.members, p, c.scope.generation))
  }

  /** Earlier generations have been cleaned up. */
  ghost predicate NothingStale(c: Core) {
    && (c.listening.acceptor.Some? ==> CurrentAcceptor(c))
    && (c.probing.timeout.Some? ==> CurrentTimeout(c))
    && (forall p :: p in c.members.peers ==> OfGeneration(c.members, p, c.scope.generation))
  }

  /** A stop cleans up everything of earlier generations before the next one starts,
      and never hits a current one. */
  ghost predicate CleanupsInOrder(s: Server) {
    && StopsFirst(s.io, s.core.scope.generation)
    && (if StopTask in s.io then NothingCurrent(s.core) else NothingStale(s.core))
  }

  lemma AppendStopsFirst(io: seq<IoTask>, added: seq<IoTask>, g: Token)
    requires StopsFirst(io, g) && StopTask !in added
    ensures StopsFirst(io + added, g)
  {
    var t := io + added;
    forall i, j | 0 <= i < j < |t| && StartsSession(t[i], g)
      ensures t[j] != StopTask
    {
      if j >= |io| {
        assert t[j] in added;
      }
    }
  }

  lemma TailStopsFirst(io: seq<IoTask>, g: Token)
    requires StopsFirst(io, g) && io != []
    ensures StopsFirst(io[1..], g)
    ensures StartsSession(io[0], g) ==> StopTask !in io
  {
    if StartsSession(io[0], g) {
      forall j | 0 <= j < |io|
        ensures io[j] != StopTask
      {
      }
    }
  }

  lemma DispatcherEffectStops(c: Core, task: DispatcherTask, verified: bool)
    ensures var f := RunDispatcherTask(c, task, verified);
            if task.UserStop? then f.posted == [StopTask] else StopTask !in f.posted
  {
    hide Judge, Settle;
  }

  lemma SamePeersGeneration(c: Core, d: Core)
    requires MembersSound(c.members) && d.scope == c.scope
    requires SameTokens(c.scope, c.members, d.members) && c.members.known.Keys <= d.members.known.Keys
    ensures forall p :: p in c.members.peers ==>
              (OfGeneration(d.members, p, c.scope.generation) <==> OfGeneration(c.members, p, c.scope.generation))
  {
  }

  lemma DispatcherMembersPeers(c: Core, task: DispatcherTask, verified: bool)
    requires MembersSound(c.members)
    ensures var n := MembersAfterDispatcher(c, task, verified);
            n.peers == c.members.peers && n.known.Keys == c.members.known.Keys
  {
  }

  lemma DispatcherKeepsCleanups(s: Server, verified: bool, invalidate: bool)
    requires CleanupsInOrder(s) && TokensSound(s) && MembersSound(s.core.members) && s.dispatcher != []
    ensures CleanupsInOrder(Step(s, RunDispatcher(verified), invalidate))
  {
    hide RunDispatcherTask, MembersAfterDispatcher, StopsFirst;
    var g := s.core.scope.generation;
    var t := Step(s, RunDispatcher(verified), invalidate);
    var f := RunDispatcherTask(s.core, s.dispatcher[0], verified);
    DispatcherFrame(s.core, s.dispatcher[0], verified);
    DispatcherEffectStops(s.core, s.dispatcher[0], verified);
    DispatcherMemberTokens(s.core, s.dispatcher[0], verified);
    DispatcherMembersPeers(s.core, s.dispatcher[0], verified);
    OldOrNew(s.io, f.posted);
    if s.dispatcher[0].UserStop? {
      NewGenerationStopsFirst(s, g + 1);
      assert StopTask in t.io;
    } else {
      AppendStopsFirst(s.io, f.posted, g);
    }
  }

  lemma NewGenerationStopsFirst(s: Server, g: Token)
    requires TokensSound(s) && g == s.core.scope.generation + 1
    ensures StopsFirst(s.io + [StopTask], g)
  {
    hide CoreTokens;
    assert forall task :: task in s.io ==> !StartsSession(task, g);
    var t := s.io + [StopTask];
    forall i | 0 <= i < |t|
      ensures !StartsSession(t[i], g)
    {
    }
  }

  lemma IoMembersPeers(m: Members, task: IoTask)
    requires MembersSound(m)
    ensures var n := MembersAfterIo(m, task); n.peers <= m.peers && n.known.Keys == m.known.Keys
  {
  }

  lemma IoKeepsCleanups(s: Server, ok: bool, order: seq<PeerId>, invalidate: bool)
    requires CleanupsInOrder(s) && TokensSound(s) && MembersSound(s.core.members) && Enabled(s, RunIo(ok, order))
    ensures CleanupsInOrder(Step(s, RunIo(ok, order), invalidate))
  {
    hide RunIoTask, MembersAfterIo, StopsFirst, Enumerates, CoreTokens;
    var g := s.core.scope.generation;
    var f := RunIoTask(s.core, s.io[0], ok, order);
    IoFrame(s.core, s.io[0], ok, order);
    IoEffectTokens(s.core, s.io[0], ok, order);
    IoEffectProbe(s.core, s.io[0], ok, order);
    IoMemberTokens(s.core, s.io[0]);
    IoMembersPeers(s.core.members, s.io[0]);
    SamePeersGeneration(s.core, f.core);
    StopTaskClears(s.core, order, ok);
    TailStopsFirst(s.io, g);
    AppendStopsFirst(s.io[1..], f.posted, g);
    OldOrNew(s.io, []);
    OldOrNew(s.io[1..], f.posted);
  }

  lemma StopTaskClears(c: Core, order: seq<PeerId>, ok: bool)
    ensures var d := RunIoTask(c, StopTask, ok, order).core;
            d.listening.acceptor.None? && d.probing.timeout.None? && d.probing.peer.None? && d.members.peers == {}
  {
    hide CompleteAll;
  }

  lemma EventMembersPeers(c: Core, e: Event, n: Members)
    requires e.PeerEmits? || e.PeerDestroyed? ==> e.peer in c.members.known
    requires MembersSound(c.members) && MembersAfterEvent(c, e, n)
    ensures c.members.known.Keys <= n.known.Keys
    ensures n.peers <= c.members.peers
         || (e.AcceptCompletes? && c.scope.IsCurrent(e.op.token) && n == Adopt(c.members, e.op.token))
  {
  }

  lemma EventKeepsListening(c: Core, e: Event, m: Listening)
    requires ListeningAfterEvent(c, e, m)
    requires e.AcceptCompletes? ==> e.op in c.listening.accepts
    ensures m.acceptor.None? || m.acceptor == c.listening.acceptor
    ensures (forall op :: op in c.listening.accepts ==> op.token != c.scope.generation) ==>
              forall op :: op in m.accepts ==> op.token != c.scope.generation
  {
  }

  lemma EventKeepsCores(c: Core, e: Event, d: Core)
    requires e.PeerEmits? || e.PeerDestroyed? ==> e.peer in c.members.known
    requires e.AcceptCompletes? ==> e.op in c.listening.accepts
    requires MembersSound(c.members) && d.scope == c.scope && ProbeKept(c, d.probing)
    requires MembersAfterEvent(c, e, d.members) && ListeningAfterEvent(c, e, d.listening)
    ensures NothingCurrent(c) ==> NothingCurrent(d)
    ensures NothingStale(c) ==> NothingStale(d)
  {
    hide MembersAfterEvent, ListeningAfterEvent;
    EventMemberTokens(c, e, d.members);
    EventMembersPeers(c, e, d.members);
    hide MembersSound;
    SamePeersGeneration(c, d);
    EventKeepsListening(c, e, d.listening);
    if NothingStale(c) && !(d.members.peers <= c.members.peers) {
      AdoptedIsCurrent(c, e.op.token, d.members);
    }
  }

  lemma AdoptedIsCurrent(c: Core, token: Token, n: Members)
    requires c.scope.IsCurrent(token) && n == Adopt(c.members, token)
    ensures forall p :: p in n.peers ==> p in c.members.peers || OfGeneration(n, p, c.scope.generation)
  {
  }

  lemma EventKeepsCleanups(s: Server, e: Event, invalidate: bool)
    requires CleanupsInOrder(s) && TokensSound(s) && MembersSound(s.core.members)
    requires Enabled(s, e) && !e.RunDispatcher? && !e.RunIo?
    ensures CleanupsInOrder(Step(s, e, invalidate))
  {
    hide Happens, MembersAfterEvent, ListeningAfterEvent, StopsFirst, MayEmit, CoreTokens, NothingCurrent, NothingStale;
    var f := Happens(s.core, e, invalidate);
    EventFrame(s.core, e, invalidate);
    AcceptToken(s.core, e);
    EventEffectTokens(s.core, e, invalidate);
    EventKeepsCores(s.core, e, f.core);
    AppendStopsFirst(s.io, f.posted, s.core.scope.generation);
    OldOrNew(s.io, f.posted);
  }

  // --------------------------------------------------------------- accepting

  /** A current acceptor always has an accept outstanding under the current token. */
  ghost predicate AcceptorAlive(c: Core) {
    CurrentAcceptor(c) ==> Accept(c.listening.acceptor.value, c.scope.generation) in c.listening.accepts
  }

  lemma IoKeepsAcceptorAlive(c: Core, task: IoTask, d: Core)
    requires AcceptorAlive(c) && d.scope == c.scope && ListeningAfterIo(c, task, d.listening)
    ensures AcceptorAlive(d)
  {
  }

  lemma EventKeepsAcceptorAlive(c: Core, e: Event, d: Core)
    requires AcceptorAlive(c) && CoreTokens(c) && d.scope == c.scope && ListeningAfterEvent(c, e, d.listening)
    requires e.AcceptCompletes? && e.result.AcceptAborted? ==> c.listening.acceptor != Some(e.op.acceptor)
    ensures AcceptorAlive(d)
  {
  }

  lemma StepKeepsAcceptorAlive(s: Server, e: Event, invalidate: bool)
    requires AcceptorAlive(s.core) && CoreTokens(s.core) && Enabled(s, e)
    ensures AcceptorAlive(Step(s, e, invalidate).core)
  {
    hide RunDispatcherTask, RunIoTask, Happens, MayEmit, Enumerates, MembersAfterDispatcher, MembersAfterIo,
         MembersAfterEvent, ListeningAfterIo, ListeningAfterEvent;
    match e
    case RunDispatcher(verified) => DispatcherFrame(s.core, s.dispatcher[0], verified);
    case RunIo(ok, order) =>
      IoFrame(s.core, s.io[0], ok, order);
      IoKeepsAcceptorAlive(s.core, s.io[0], RunIoTask(s.core, s.io[0], ok, order).core);
    case _ =>
      EventFrame(s.core, e, invalidate);
      EventKeepsAcceptorAlive(s.core, e, Happens(s.core, e, invalidate).core);
  }

  /** The user was told of a current acceptor, or will be. */
  ghost predicate BoundAnnounced(s: Server) {
    CurrentAcceptor(s.core) ==>
      || Notify(s.core.scope.generation, Deliver(Bound)) in s.dispatcher
      || Entry(OfSession(Bound), s.core.scope.generation) in s.core.log
  }

  lemma DispatcherEffectBound(c: Core, task: DispatcherTask, verified: bool)
    ensures var d := RunDispatcherTask(c, task, verified).core;
            && (forall entry :: entry in c.log ==> entry in d.log)
            && (task.Notify? && task.notification == Deliver(Bound) && c.scope.IsCurrent(task.token) ==>
                  Entry(OfSession(Bound), task.token) in d.log)
  {
    hide Judge, Settle;
  }

  lemma IoEffectBound(c: Core, task: IoTask, ok: bool, order: seq<PeerId>)
    ensures var f := RunIoTask(c, task, ok, order);
            CurrentAcceptor(f.core) && f.core.listening.acceptor != c.listening.acceptor ==>
              f.enqueued == [Notify(c.scope.generation, Deliver(Bound))]
  {
    hide CompleteAll, CompletePeer, CompleteOfPeer, Add, Expel, Emit, Enumerates;
  }

  lemma StepKeepsBoundAnnounced(s: Server, e: Event, invalidate: bool)
    requires BoundAnnounced(s) && CoreTokens(s.core) && Enabled(s, e)
    ensures BoundAnnounced(Step(s, e, invalidate))
  {
    hide RunDispatcherTask, RunIoTask, Happens, MayEmit, Enumerates, MembersAfterDispatcher, MembersAfterIo,
         MembersAfterEvent, ListeningAfterIo, ListeningAfterEvent;
    StepQueues(s, e, invalidate);
    match e
    case RunDispatcher(verified) =>
      DispatcherFrame(s.core, s.dispatcher[0], verified);
      DispatcherEffectBound(s.core, s.dispatcher[0], verified);
    case RunIo(ok, order) =>
      IoFrame(s.core, s.io[0], ok, order);
      IoEffectBound(s.core, s.io[0], ok, order);
    case _ =>
      EventFrame(s.core, e, invalidate);
      EventKeepsListening(s.core, e, Happens(s.core, e, invalidate).core.listening);
  }

  // ---------------------------------------------------------------- progress

  /** What a queued task does to the bind retry timer. */
  function Rearms(task: DispatcherTask): Option<bool> {
    if task.DebounceRetry? then Some(true) else if task.CancelRetry? then Some(false) else None
  }

  predicate LeavesTimer(added: seq<DispatcherTask>) {
    forall task :: task in added ==> Rearms(task) == None
  }

  lemma LeavesTimerArmed(added: seq<DispatcherTask>, armed: bool)
    requires LeavesTimer(added)
    ensures WillBeArmed(added, Rearms, armed) == armed
  {
    LeavesArmed(added, Rearms, armed);
  }

  /** A notification that, delivered under generation `g`, schedules a bind retry. */
  predicate Retries(task: DispatcherTask, g: Token) {
    task == Notify(g, Deliver(BindFailed)) || task == Notify(g, Deliver(ListenerClosed))
  }

  /** What leads the server on: a current acceptor, a queued bind, a notification
      that schedules a retry, or the timer. */
  ghost predicate LeadsOn(s: Server) {
    var g := s.core.scope.generation;
    || CurrentAcceptor(s.core)
    || BindTask(g) in s.io
    || (exists task :: task in s.dispatcher && Retries(task, g))
    || WillBeArmed(s.dispatcher, Rearms, s.core.retryArmed)
  }

  ghost predicate NeverStalled(s: Server) {
    s.core.scope.running ==> LeadsOn(s)
  }

  lemma DispatcherEffectLeads(c: Core, task: DispatcherTask, verified: bool)
    ensures var f := RunDispatcherTask(c, task, verified);
            var g := f.core.scope.generation;
            f.core.scope.running ==>
              || f.posted == [BindTask(g)]
              || (f.core.scope == c.scope && f.core.retryArmed == ArmedBy(Rearms(task), c.retryArmed)
                  && if Retries(task, g) then f.enqueued == [StopChecks, DebounceRetry] else LeavesTimer(f.enqueued))
  {
    hide Judge, Settle;
  }

  lemma DispatcherNeverStalls(s: Server, verified: bool, invalidate: bool)
    requires NeverStalled(s) && s.dispatcher != []
    ensures NeverStalled(Step(s, RunDispatcher(verified), invalidate))
  {
    hide RunDispatcherTask, LeavesTimer, MembersAfterDispatcher;
    var t := Step(s, RunDispatcher(verified), invalidate);
    var f := RunDispatcherTask(s.core, s.dispatcher[0], verified);
    var g := s.core.scope.generation;
    StepQueues(s, RunDispatcher(verified), invalidate);
    DispatcherFrame(s.core, s.dispatcher[0], verified);
    DispatcherEffectLeads(s.core, s.dispatcher[0], verified);
    if f.core.scope.running && f.posted != [BindTask(f.core.scope.generation)] {
      AppendArmed(s.dispatcher[1..], f.enqueued, Rearms, f.core.retryArmed);
      if Retries(s.dispatcher[0], g) {
        ArmsTimer(f.enqueued, s.dispatcher[1..], f.core.retryArmed);
      } else {
        if LeavesTimer(f.enqueued) {
          LeavesTimerArmed(f.enqueued, WillBeArmed(s.dispatcher[1..], Rearms, f.core.retryArmed));
        }
        if task :| task in s.dispatcher && Retries(task, g) {
          assert task in t.dispatcher;
        }
      }
    }
  }

  lemma ArmsTimer(added: seq<DispatcherTask>, rest: seq<DispatcherTask>, armed: bool)
    requires added == [StopChecks, DebounceRetry]
    ensures WillBeArmed(added, Rearms, WillBeArmed(rest, Rearms, armed))
  {
    assert added[1..] == [DebounceRetry] && added[1..][1..] == [];
  }

  lemma IoEffectLeads(c: Core, task: IoTask, ok: bool, order: seq<PeerId>)
    requires task.StopTask? ==> !CurrentAcceptor(c)
    requires task == BindTask(c.scope.generation) ==> (c.listening.acceptor.Some? ==> CurrentAcceptor(c))
    ensures var f := RunIoTask(c, task, ok, order);
            var g := c.scope.generation;
            && LeavesTimer(f.enqueued)
            && (c.scope.running && (CurrentAcceptor(c) || task == BindTask(g)) ==>
                  CurrentAcceptor(f.core) || (f.enqueued != [] && Retries(f.enqueued[0], g)))
  {
    hide CompleteAll, CompletePeer, CompleteOfPeer, Add, Expel, Emit;
  }

  lemma CleanupSparesCurrent(s: Server)
    requires CleanupsInOrder(s) && s.io != []
    ensures s.io[0].StopTask? ==> !CurrentAcceptor(s.core)
    ensures s.io[0] == BindTask(s.core.scope.generation) ==> s.core.listening.acceptor.Some? ==> CurrentAcceptor(s.core)
  {
    TailStopsFirst(s.io, s.core.scope.generation);
    assert s.io[0] in s.io;
  }

  lemma IoNeverStalls(s: Server, ok: bool, order: seq<PeerId>, invalidate: bool)
    requires NeverStalled(s) && CleanupsInOrder(s) && Enabled(s, RunIo(ok, order))
    ensures NeverStalled(Step(s, RunIo(ok, order), invalidate))
  {
    hide RunIoTask, CleanupsInOrder, LeavesTimer, Enumerates, MembersAfterIo, ListeningAfterIo, CurrentAcceptor;
    var t := Step(s, RunIo(ok, order), invalidate);
    var f := RunIoTask(s.core, s.io[0], ok, order);
    CleanupSparesCurrent(s);
    StepQueues(s, RunIo(ok, order), invalidate);
    IoFrame(s.core, s.io[0], ok, order);
    IoEffectLeads(s.core, s.io[0], ok, order);
    AppendArmed(s.dispatcher, f.enqueued, Rearms, s.core.retryArmed);
    LeavesTimerArmed(f.enqueued, WillBeArmed(s.dispatcher, Rearms, s.core.retryArmed));
    if s.core.scope.running {
      if task :| task in s.dispatcher && Retries(task, s.core.scope.generation) {
        assert task in t.dispatcher;
      }
      if f.enqueued != [] {
        assert f.enqueued[0] in t.dispatcher;
      }
    }
  }

  lemma EventLeavesTimer(c: Core, e: Event, invalidate: bool)
    requires e.PeerEmits? || e.PeerDestroyed? ==> e.peer in c.members.known
    ensures LeavesTimer(Happens(c, e, invalidate).enqueued)
  {
    hide CompletePeer, TimerRuns, TimesOut, Expel, Emit, Adopt, AcceptNext;
  }

  lemma EventRetries(c: Core, e: Event, invalidate: bool)
    requires e.PeerEmits? || e.PeerDestroyed? ==> e.peer in c.members.known
    ensures var f := Happens(c, e, invalidate);
            && (c.scope.running && c.retryArmed && !f.core.retryArmed ==> f.posted == [BindTask(c.scope.generation)])
            && (!c.retryArmed ==> !f.core.retryArmed)
  {
    hide CompletePeer, TimerRuns, TimesOut, Expel, Emit, Adopt, AcceptNext, DropProbe, ConnectFailed, AdoptProbe;
  }

  lemma EventEffectLeads(c: Core, e: Event, invalidate: bool)
    requires e.PeerEmits? || e.PeerDestroyed? ==> e.peer in c.members.known
    ensures var f := Happens(c, e, invalidate);
            c.scope.running && CurrentAcceptor(c) ==>
              CurrentAcceptor(f.core) || (f.enqueued != [] && Retries(f.enqueued[0], c.scope.generation))
  {
    hide CompletePeer, TimerRuns, TimesOut, Expel, Emit, Adopt, DropProbe, ConnectFailed, AdoptProbe;
  }

  lemma EventNeverStalls(s: Server, e: Event, invalidate: bool)
    requires NeverStalled(s) && Enabled(s, e) && !e.RunDispatcher? && !e.RunIo?
    ensures NeverStalled(Step(s, e, invalidate))
  {
    hide Happens, LeavesTimer, MayEmit, MembersAfterEvent, ListeningAfterEvent, CurrentAcceptor;
    var t := Step(s, e, invalidate);
    var f := Happens(s.core, e, invalidate);
    StepQueues(s, e, invalidate);
    EventFrame(s.core, e, invalidate);
    EventEffectLeads(s.core, e, invalidate);
    EventLeavesTimer(s.core, e, invalidate);
    EventRetries(s.core, e, invalidate);
    AppendArmed(s.dispatcher, f.enqueued, Rearms, f.core.retryArmed);
    LeavesTimerArmed(f.enqueued, WillBeArmed(s.dispatcher, Rearms, f.core.retryArmed));
    if s.core.scope.running {
      if task :| task in s.dispatcher && Retries(task, s.core.scope.generation) {
        assert task in t.dispatcher;
      }
      if f.enqueued != [] {
        assert f.enqueued[0] in t.dispatcher;
      }
    }
  }
}
