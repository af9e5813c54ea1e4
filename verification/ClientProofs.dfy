/** Invariants of the client over every interleaving. */
module ClientProofs {
  import opened Common
  import opened Queues
  import opened NotificationScope
  import opened Requests
  import opened ClientModel

  // ------------------------------------------------------------------ queues

  /** A step's queues hold what they held, less a head that ran, and what its effect added. */
  lemma StepQueues(s: Client, e: Event, invalidate: bool)
    requires Enabled(s, e)
    ensures var t := Step(s, e, invalidate);
            var f := EffectOf(s, e, invalidate);
            && (forall task :: task in t.dispatcher ==> task in s.dispatcher || task in f.enqueued)
            && (forall task :: task in f.enqueued ==> task in t.dispatcher)
            && (forall task :: task in s.dispatcher ==>
                  task in t.dispatcher || (e.RunDispatcher? && task == s.dispatcher[0]))
            && (forall task :: task in t.io ==> task in s.io || task in f.posted)
            && (forall task :: task in f.posted ==> task in t.io)
            && (forall task :: task in s.io ==> task in t.io || (e.RunIo? && task == s.io[0]))
  {
    hide RunDispatcherTask, RunIoTask, Happens;
    var r := Remaining(s, e);
    var f := EffectOf(s, e, invalidate);
    OldOrNew(r.dispatcher, f.enqueued);
    OldOrNew(r.io, f.posted);
    OldOrNew(s.dispatcher, f.enqueued);
    OldOrNew(s.io, f.posted);
  }

  // ---------------------------------------------------------------- sessions

  ghost predicate HandleTokens(c: Core, k: Option<Handle>) {
    k.Some? ==> k.value.token <= c.scope.generation && (k.value.token == c.scope.generation ==> c.scope.running)
  }

  /** A connection never outlives its generation unnoticed, and connecting and
      connected exclude each other, so that no assignment overwrites a live peer. */
  ghost predicate SessionSound(c: Core) {
    && HandleTokens(c, c.session.connecting)
    && HandleTokens(c, c.session.peer)
    && (c.session.connecting.None? || c.session.peer.None?)
    && (forall id :: id in c.captured ==> c.captured[id] <= c.scope.generation)
  }

  predicate DispatcherTaskToken(c: Core, task: DispatcherTask) {
    task.Notify? ==> task.token <= c.scope.generation
  }

  predicate IoTaskToken(c: Core, task: IoTask) {
    task.ConnectTask? || task.InvalidateTask? ==> task.token <= c.scope.generation
  }

  /** No task carries a token from the future. */
  ghost predicate TokensSound(s: Client) {
    && (forall task :: task in s.dispatcher ==> DispatcherTaskToken(s.core, task))
    && (forall task :: task in s.io ==> IoTaskToken(s.core, task))
  }

  /** What the invariants need to know about the size and tokens of an effect. */
  ghost predicate EffectTokens(c: Core, f: Effect) {
    && |f.enqueued| <= 1 && |f.posted| <= 1
    && c.scope.generation <= f.core.scope.generation
    && (f.enqueued != [] ==> DispatcherTaskToken(f.core, f.enqueued[0]))
    && (f.posted != [] ==> IoTaskToken(f.core, f.posted[0]))
  }

  lemma DispatcherEffectTokens(c: Core, task: DispatcherTask, verified: bool)
    requires SessionSound(c) && DispatcherTaskToken(c, task)
    ensures var f := RunDispatcherTask(c, task, verified); EffectTokens(c, f) && SessionSound(f.core)
  {
  }

  lemma IoEffectTokens(c: Core, task: IoTask, endpointOk: bool)
    requires SessionSound(c) && IoTaskToken(c, task)
    ensures var f := RunIoTask(c, task, endpointOk); EffectTokens(c, f) && SessionSound(f.core)
  {
    hide CompleteAll, Complete, Add;
  }

  lemma EventEffectTokens(c: Core, e: Event, invalidate: bool)
    requires SessionSound(c)
    ensures var f := Happens(c, e, invalidate); EffectTokens(c, f) && SessionSound(f.core)
  {
    hide CompleteAll, TimerRuns, TimesOut;
  }

  lemma StepKeepsTokensSound(s: Client, e: Event, invalidate: bool)
    requires SessionSound(s.core) && TokensSound(s) && Enabled(s, e)
    ensures SessionSound(Step(s, e, invalidate).core) && TokensSound(Step(s, e, invalidate))
    ensures EffectTokens(s.core, EffectOf(s, e, invalidate))
  {
    hide SessionSound, RunDispatcherTask, RunIoTask, Happens;
    StepQueues(s, e, invalidate);
    match e
    case RunDispatcher(verified) => DispatcherEffectTokens(s.core, s.dispatcher[0], verified);
    case RunIo(endpointOk) => IoEffectTokens(s.core, s.io[0], endpointOk);
    case _ => EventEffectTokens(s.core, e, invalidate);
  }

  // ----------------------------------------------------------------- handles

  predicate KnownNote(peers: set<Handle>, note: UserNote) {
    note.ConnectFailed? || note.VerificationFailed? || note.peer in peers
  }

  predicate KnownTask(peers: set<Handle>, task: DispatcherTask) {
    && (task.SignalSlot? ==> task.peer in peers)
    && (task.Notify? && task.notification.Deliver? ==> KnownNote(peers, task.notification.note))
  }

  predicate KnownIoTask(peers: set<Handle>, task: IoTask) {
    task.AnnouncePeer? || task.ForwardSignal? || task.ClosePeerTask? ==> task.peer in peers
  }

  ghost predicate CoreHandlesKnown(c: Core) {
    && (forall p :: p in c.session.peers ==> p.id < c.session.nextId)
    && (c.session.peer.Some? ==> c.session.peer.value in c.session.peers)
    && c.session.live <= c.session.peers
  }

  /** Everything that mentions a peer mentions one that was made, and ids are used once. */
  ghost predicate HandlesKnown(s: Client) {
    && CoreHandlesKnown(s.core)
    && (forall task :: task in s.dispatcher ==> KnownTask(s.core.session.peers, task))
    && (forall task :: task in s.io ==> KnownIoTask(s.core.session.peers, task))
    && (forall entry :: entry in s.core.log ==> KnownNote(s.core.session.peers, entry.note))
  }

  ghost predicate EffectHandlesKnown(c: Core, f: Effect) {
    && CoreHandlesKnown(f.core)
    && c.session.peers <= f.core.session.peers
    && (forall task :: task in f.enqueued ==> KnownTask(f.core.session.peers, task))
    && (forall task :: task in f.posted ==> KnownIoTask(f.core.session.peers, task))
  }

  lemma DispatcherEffectHandles(c: Core, task: DispatcherTask, verified: bool)
    requires CoreHandlesKnown(c) && KnownTask(c.session.peers, task)
    ensures var f := RunDispatcherTask(c, task, verified); EffectHandlesKnown(c, f)
  {
  }

  lemma DispatcherEffectLog(c: Core, task: DispatcherTask, verified: bool)
    ensures var f := RunDispatcherTask(c, task, verified);
            && (f.core.log == c.log
                || (task.Notify? && task.notification.Deliver? && c.scope.IsCurrent(task.token)
                    && f.core.scope == c.scope
                    && f.core.log == c.log + [Entry(task.notification.note, task.token)]))
            && f.core.session == c.session && f.core.requests == c.requests && f.core.captured == c.captured
  {
  }

  lemma IoEffectHandles(c: Core, task: IoTask, endpointOk: bool)
    requires CoreHandlesKnown(c) && KnownIoTask(c.session.peers, task)
    ensures var f := RunIoTask(c, task, endpointOk);
            EffectHandlesKnown(c, f) && f.core.log == c.log && f.core.scope == c.scope && f.core.armed == c.armed
  {
    hide CompleteAll, Complete, Add;
  }

  lemma EventEffectHandles(c: Core, e: Event, invalidate: bool)
    requires CoreHandlesKnown(c)
    requires (e.PeerEmits? || e.PeerCloseRuns?) ==> e.peer in c.session.peers
    ensures var f := Happens(c, e, invalidate);
            EffectHandlesKnown(c, f) && f.core.log == c.log && f.core.scope == c.scope
  {
    hide CompleteAll, TimerRuns, TimesOut;
  }

  lemma StepKeepsHandlesKnown(s: Client, e: Event, invalidate: bool)
    requires HandlesKnown(s) && Enabled(s, e)
    ensures HandlesKnown(Step(s, e, invalidate))
    ensures EffectHandlesKnown(s.core, EffectOf(s, e, invalidate))
  {
    hide CoreHandlesKnown, RunDispatcherTask, RunIoTask, Happens;
    StepQueues(s, e, invalidate);
    match e
    case RunDispatcher(verified) =>
      DispatcherEffectHandles(s.core, s.dispatcher[0], verified);
      DispatcherEffectLog(s.core, s.dispatcher[0], verified);
    case RunIo(endpointOk) => IoEffectHandles(s.core, s.io[0], endpointOk);
    case _ => EventEffectHandles(s.core, e, invalidate);
  }

  // ---------------------------------------------------------------- cleanups

  predicate Cleans(task: IoTask) {
    task.StopTask? || task.InvalidateTask?
  }

  /** A cleanup runs before any connect task of generation `g`. */
  predicate CleanFirst(io: seq<IoTask>, g: Token) {
    io != [] && (Cleans(io[0]) || (io[0] != ConnectTask(g) && CleanFirst(io[1..], g)))
  }

  predicate NoCleanup(io: seq<IoTask>) {
    forall task :: task in io ==> !Cleans(task)
  }

  /** No cleanup is left to run after a connect task of generation `g`. */
  predicate CleanupsPrecede(io: seq<IoTask>, g: Token) {
    io == [] || (if io[0] == ConnectTask(g) then NoCleanup(io[1..]) else CleanupsPrecede(io[1..], g))
  }

  ghost predicate Cleaned(k: Option<Handle>, io: seq<IoTask>, g: Token) {
    k.Some? ==> if k.value.token == g then NoCleanup(io) else CleanFirst(io, g)
  }

  /** A connection left over from an earlier generation is cleaned up before the
      next connect runs, and no cleanup is left to hit a current one. */
  ghost predicate CleanupsInOrder(s: Client) {
    && CleanupsPrecede(s.io, s.core.scope.generation)
    && Cleaned(s.core.session.connecting, s.io, s.core.scope.generation)
    && Cleaned(s.core.session.peer, s.io, s.core.scope.generation)
  }

  lemma {:induction false} AppendCleanup(io: seq<IoTask>, task: IoTask, g: Token)
    requires ConnectTask(g) !in io && Cleans(task)
    ensures CleanFirst(io + [task], g) && CleanupsPrecede(io + [task], g)
  {
    if io == [] {
      assert io + [task] == [task];
    } else {
      assert (io + [task])[1..] == io[1..] + [task];
      AppendCleanup(io[1..], task, g);
    }
  }

  lemma {:induction false} AppendOther(io: seq<IoTask>, added: seq<IoTask>, g: Token)
    requires NoCleanup(added) && |added| <= 1
    ensures CleanFirst(io, g) ==> CleanFirst(io + added, g)
    ensures CleanupsPrecede(io, g) ==> CleanupsPrecede(io + added, g)
    ensures NoCleanup(io) ==> NoCleanup(io + added)
  {
    if io == [] {
      assert io + added == added;
      if added != [] {
        assert added[1..] == [];
      }
    } else {
      assert (io + added)[1..] == io[1..] + added;
      AppendOther(io[1..], added, g);
    }
  }

  lemma {:induction false} NothingToClean(io: seq<IoTask>, g: Token)
    requires NoCleanup(io)
    ensures CleanupsPrecede(io, g)
  {
    if io != [] {
      NothingToClean(io[1..], g);
    }
  }

  lemma PopPrecede(io: seq<IoTask>, added: seq<IoTask>, g: Token)
    requires io != [] && CleanupsPrecede(io, g) && NoCleanup(added) && |added| <= 1
    ensures CleanupsPrecede(io[1..] + added, g)
    ensures io[0] == ConnectTask(g) ==> NoCleanup(io[1..] + added)
  {
    if io[0] == ConnectTask(g) {
      NothingToClean(io[1..], g);
    }
    AppendOther(io[1..], added, g);
  }

  lemma PopCleaned(k: Option<Handle>, io: seq<IoTask>, added: seq<IoTask>, g: Token)
    requires io != [] && Cleaned(k, io, g) && !Cleans(io[0]) && NoCleanup(added) && |added| <= 1
    ensures Cleaned(k, io[1..] + added, g)
  {
    AppendOther(io[1..], added, g);
  }

  predicate Kept(k: Option<Handle>, t: Option<Handle>) {
    t == None || t == k
  }

  lemma DispatcherEffectScope(c: Core, task: DispatcherTask, verified: bool)
    ensures var f := RunDispatcherTask(c, task, verified);
            || (f.core.scope.generation == c.scope.generation && NoCleanup(f.posted))
            || (f.core.scope.generation == c.scope.generation + 1 && |f.posted| == 1 && Cleans(f.posted[0]))
  {
  }

  lemma IoEffectSession(c: Core, task: IoTask, endpointOk: bool)
    ensures var f := RunIoTask(c, task, endpointOk);
            var g := c.scope.generation;
            && f.core.scope == c.scope && NoCleanup(f.posted) && |f.posted| <= 1
            && (Cleans(task) ==> f.core.session.connecting.None? && f.core.session.peer.None?)
            && (Kept(c.session.connecting, f.core.session.connecting)
                || (task == ConnectTask(g) && f.core.session.connecting.value.token == g))
            && (Kept(c.session.peer, f.core.session.peer)
                || (c.session.connecting.Some? && c.session.connecting.value.token == g
                    && f.core.session.peer.value.token == g && f.core.session.connecting.None?))
  {
    hide CompleteAll, Complete, Add;
  }

  lemma EventEffectSession(c: Core, e: Event, invalidate: bool)
    ensures var f := Happens(c, e, invalidate);
            && f.core.scope == c.scope && NoCleanup(f.posted) && |f.posted| <= 1
            && Kept(c.session.connecting, f.core.session.connecting)
            && Kept(c.session.peer, f.core.session.peer)
  {
    hide CompleteAll, TimerRuns, TimesOut;
  }

  lemma DispatcherKeepsCleanups(s: Client, verified: bool, invalidate: bool)
    requires CleanupsInOrder(s) && TokensSound(s) && SessionSound(s.core) && s.dispatcher != []
    ensures CleanupsInOrder(Step(s, RunDispatcher(verified), invalidate))
  {
    hide RunDispatcherTask, CleanFirst, CleanupsPrecede, NoCleanup;
    var f := RunDispatcherTask(s.core, s.dispatcher[0], verified);
    var g := s.core.scope.generation;
    DispatcherEffectScope(s.core, s.dispatcher[0], verified);
    DispatcherEffectLog(s.core, s.dispatcher[0], verified);
    DispatcherEffectTokens(s.core, s.dispatcher[0], verified);
    if f.core.scope.generation == g {
      AppendOther(s.io, f.posted, g);
    } else {
      assert ConnectTask(g + 1) !in s.io;
      assert f.posted == [f.posted[0]];
      AppendCleanup(s.io, f.posted[0], g + 1);
    }
  }

  lemma IoKeepsCleanups(s: Client, endpointOk: bool, invalidate: bool)
    requires CleanupsInOrder(s) && s.io != []
    ensures CleanupsInOrder(Step(s, RunIo(endpointOk), invalidate))
  {
    hide RunIoTask, CleanFirst, CleanupsPrecede, NoCleanup;
    var f := RunIoTask(s.core, s.io[0], endpointOk);
    var g := s.core.scope.generation;
    IoEffectSession(s.core, s.io[0], endpointOk);
    PopPrecede(s.io, f.posted, g);
    if !Cleans(s.io[0]) {
      PopCleaned(s.core.session.connecting, s.io, f.posted, g);
      PopCleaned(s.core.session.peer, s.io, f.posted, g);
    }
  }

  lemma EventKeepsCleanups(s: Client, e: Event, invalidate: bool)
    requires CleanupsInOrder(s) && Enabled(s, e) && !e.RunDispatcher? && !e.RunIo?
    ensures CleanupsInOrder(Step(s, e, invalidate))
  {
    hide Happens, CleanFirst, CleanupsPrecede;
    EventEffectSession(s.core, e, invalidate);
    AppendOther(s.io, Happens(s.core, e, invalidate).posted, s.core.scope.generation);
  }

  // ---------------------------------------------------------------- requests

  /** Every pending request was sent on the current peer, under that peer's
      generation or a later one, and only its answers were read from it. */
  ghost predicate RequestsOnPeer(c: Core) {
    && Conserved(c.requests)
    && (forall id :: id in c.requests.pending ==>
          && c.session.peer.Some? && c.requests.pending[id] == Pending(None, c.session.peer.value.id)
          && id in c.captured && c.session.peer.value.token <= c.captured[id])
    && (forall b :: b in c.requests.callbacks && b.outcome.Answered? ==>
          b.outcome.from == b.connection && b.outcome.responseId == b.id)
  }

  lemma CompleteAllKeepsRequests(c: Core, code: ErrorCode, peer: Option<Handle>)
    requires RequestsOnPeer(c)
    ensures RequestsOnPeer(c.(requests := CompleteAll(c.requests, code), session := c.session.(peer := peer)))
  {
    FailAllConserves(c.requests, c.requests.pending.Keys, code);
  }

  lemma ResponseKeepsRequests(c: Core, id: RequestId, data: Bytes)
    requires RequestsOnPeer(c) && c.session.peer.Some?
    ensures RequestsOnPeer(c.(requests := Complete(c.requests, id, Answered(c.session.peer.value.id, id, data))))
  {
    CompleteConserves(c.requests, id, Answered(c.session.peer.value.id, id, data));
  }

  lemma SendKeepsRequests(c: Core)
    requires RequestsOnPeer(c) && SessionSound(c)
    ensures RequestsOnPeer(SendRequest(c).core)
  {
    if c.session.peer.Some? {
      AddConserves(c.requests, Pending(None, c.session.peer.value.id));
    }
  }

  lemma TimerKeepsRequests(c: Core, id: RequestId, expired: bool)
    requires RequestsOnPeer(c) && (expired || id !in c.requests.pending)
    ensures RequestsOnPeer(c.(requests := TimerRuns(c.requests, id, expired)))
  {
    TimerConserves(c.requests, id, expired);
  }

  lemma SamePeerKeepsRequests(c: Core, d: Core)
    requires RequestsOnPeer(c)
    requires d.requests == c.requests && d.captured == c.captured
    requires d.session.peer == c.session.peer || c.session.peer.None?
    ensures RequestsOnPeer(d)
  {
    hide Conserved;
  }

  lemma IoKeepsRequests(c: Core, task: IoTask, endpointOk: bool)
    requires RequestsOnPeer(c) && SessionSound(c)
    ensures RequestsOnPeer(RunIoTask(c, task, endpointOk).core)
  {
    hide RequestsOnPeer, CompleteAll, Complete, Add;
    var d := RunIoTask(c, task, endpointOk).core;
    match task
    case StopTask | InvalidateTask(_) =>
      var unconnected := c.(session := c.session.(connecting := None));
      SamePeerKeepsRequests(c, unconnected);
      CompleteAllKeepsRequests(unconnected, OperationAborted, None);
    case ForwardSignal(p, signal) =>
      if signal.Closing? && c.session.peer == Some(p) {
        var closed := c.(requests := CompleteAll(c.requests, ConnectionReset), session := c.session.(peer := None));
        CompleteAllKeepsRequests(c, ConnectionReset, None);
        SamePeerKeepsRequests(closed, d);
      } else if signal.Error? {
        CompleteAllKeepsRequests(c, signal.code, c.session.peer);
      } else if signal.Response? && c.session.peer == Some(p) {
        ResponseKeepsRequests(c, signal.id, signal.data);
      }
    case SendRequestTask => SendKeepsRequests(c);
    case HandleConnected(_, _) => SamePeerKeepsRequests(c, d) by { assert SessionSound(c); }
    case _ => SamePeerKeepsRequests(c, d);
  }

  lemma EventKeepsRequests(c: Core, e: Event, invalidate: bool)
    requires RequestsOnPeer(c)
    requires e.RequestTimerRuns? ==> e.expired || e.id !in c.requests.pending
    ensures RequestsOnPeer(Happens(c, e, invalidate).core)
  {
    hide RequestsOnPeer, CompleteAll, TimerRuns, TimesOut;
    match e
    case RequestTimerRuns(id, expired) =>
      var ran := c.(requests := TimerRuns(c.requests, id, expired));
      TimerKeepsRequests(c, id, expired);
      CompleteAllKeepsRequests(ran, ConnectionReset, None);
    case _ => SamePeerKeepsRequests(c, Happens(c, e, invalidate).core);
  }

  lemma StepKeepsRequests(s: Client, e: Event, invalidate: bool)
    requires RequestsOnPeer(s.core) && SessionSound(s.core) && Enabled(s, e)
    ensures RequestsOnPeer(Step(s, e, invalidate).core)
  {
    hide RequestsOnPeer, RunDispatcherTask, RunIoTask, Happens;
    match e
    case RunDispatcher(verified) =>
      DispatcherEffectLog(s.core, s.dispatcher[0], verified);
      SamePeerKeepsRequests(s.core, Step(s, e, invalidate).core);
    case RunIo(endpointOk) => IoKeepsRequests(s.core, s.io[0], endpointOk);
    case _ => EventKeepsRequests(s.core, e, invalidate);
  }
}
