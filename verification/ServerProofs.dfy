/** What every step of the server keeps: tokens, cleanups before new sessions,
    identities, and the requests of each peer. */
module ServerProofs {
  import opened Common
  import opened Queues
  import opened NotificationScope
  import opened Requests
  import opened ServerModel

  // ------------------------------------------------------------------ queues

  /** A step's queues hold what they held, less a head that ran, and what its effect added. */
  lemma StepQueues(s: Server, e: Event, invalidate: bool)
    requires Enabled(s, e)
    ensures var t := Step(s, e, invalidate);
            var f := EffectOf(s, e, invalidate);
            && (forall task :: task in t.dispatcher ==> task in s.dispatcher || task in f.enqueued)
            && (forall task :: task in f.enqueued ==> task in t.dispatcher)
            && (forall task :: task in s.dispatcher ==>
                  task in t.dispatcher || (e.RunDispatcher? && task == s.dispatcher[0]))
            && (forall task :: task in t.io ==> task in s.io || task in f.posted)
            && (forall task :: task in f.posted ==> task in t.io)
            && (forall task :: task in s.io ==> task in t.io || (e.RunIo? && task == s.io[0]))
  {
    hide RunDispatcherTask, RunIoTask, Happens, MayEmit, MayBeDestroyed;
    var r := Remaining(s, e);
    var f := EffectOf(s, e, invalidate);
    OldOrNew(r.dispatcher, f.enqueued);
    OldOrNew(r.io, f.posted);
    OldOrNew(s.dispatcher, f.enqueued);
    OldOrNew(s.io, f.posted);
  }

  // ------------------------------------------------------------------ frames

  lemma DispatcherFrame(c: Core, task: DispatcherTask, verified: bool)
    ensures var f := RunDispatcherTask(c, task, verified);
            && f.core.listening == c.listening && f.core.probing == c.probing && f.core.requests == c.requests
            && f.core.members == MembersAfterDispatcher(c, task, verified)
            && f.core.scope == ScopeAfterDispatcher(c.scope, task)
            && |f.enqueued| <= 2 && |f.posted| <= 1
  {
    hide Judge, Settle;
  }

  function ScopeAfterDispatcher(scope: Scope, task: DispatcherTask): Scope {
    match task
    case UserStart => Start(scope)
    case UserStop => Stop(scope)
    case _ => scope
  }

  /** How a dispatcher task changes the peers. */
  function MembersAfterDispatcher(c: Core, task: DispatcherTask, verified: bool): Members {
    match task
    case UserStop => c.members.(exposed := {})
    case Notify(token, Verify(p)) => if c.scope.IsCurrent(token) then Judge(c.members, p, verified) else c.members
    case DeliverSignal(p, signal) => Settle(c.members, p, signal)
    case _ => c.members
  }

  lemma IoFrame(c: Core, task: IoTask, ok: bool, order: seq<PeerId>)
    ensures var f := RunIoTask(c, task, ok, order);
            && f.core.scope == c.scope && f.core.log == c.log && f.core.retryArmed == c.retryArmed
            && f.core.checking == c.checking
            && f.core.members == MembersAfterIo(c.members, task)
            && ListeningAfterIo(c, task, f.core.listening)
  {
    hide CompleteAll, CompletePeer, CompleteOfPeer, Add, Expel, Emit;
  }

  function ClosedMember(m: Members, p: PeerId): Members {
    if IsOpen(m, p) then Emit(m, p, Closing) else m
  }

  function ExpelledMember(m: Members, p: PeerId): Members {
    if p in m.peers && p in m.known then Expel(m, p) else m
  }

  /** How an I/O task changes the peers. */
  function MembersAfterIo(m: Members, task: IoTask): Members {
    match task
    case StopTask => m.(peers := {})
    case ClosePeerRequest(p) => ExpelledMember(m, p)
    case PeerCloseTask(p, _) => ClosedMember(m, p)
    case ForgetPeer(p) => m.(peers := m.peers - {p})
    case _ => m
  }

  predicate NoLongerListening(l: Listening, m: Listening) {
    m == l || m == l.(acceptor := None)
  }

  predicate StartsListening(l: Listening, token: Token, m: Listening) {
    l.acceptor.None? && m == Listen(l, token)
  }

  /** How an I/O task changes the acceptor. */
  predicate ListeningAfterIo(c: Core, task: IoTask, m: Listening) {
    || NoLongerListening(c.listening, m)
    || (task.BindTask? && c.scope.IsCurrent(task.token) && StartsListening(c.listening, task.token, m))
  }

  lemma EventFrame(c: Core, e: Event, invalidate: bool)
    requires e.PeerEmits? || e.PeerDestroyed? ==> e.peer in c.members.known
    ensures var f := Happens(c, e, invalidate);
            && f.core.scope == c.scope && f.core.log == c.log && f.core.checking == c.checking
            && MembersAfterEvent(c, e, f.core.members)
            && ListeningAfterEvent(c, e, f.core.listening)
  {
    hide Happens, MembersAfterEvent, ListeningAfterEvent;
    EventMembers(c, e, invalidate);
    EventListening(c, e, invalidate);
  }

  lemma EventMembers(c: Core, e: Event, invalidate: bool)
    requires e.PeerEmits? || e.PeerDestroyed? ==> e.peer in c.members.known
    ensures var f := Happens(c, e, invalidate);
            && f.core.scope == c.scope && f.core.log == c.log && f.core.checking == c.checking
            && MembersAfterEvent(c, e, f.core.members)
  {
    hide CompletePeer, TimerRuns, Expel, Emit, Adopt, AcceptNext, DropProbe, ConnectFailed, AdoptProbe;
  }

  lemma EventListening(c: Core, e: Event, invalidate: bool)
    requires e.PeerEmits? || e.PeerDestroyed? ==> e.peer in c.members.known
    ensures ListeningAfterEvent(c, e, Happens(c, e, invalidate).core.listening)
  {
    hide CompletePeer, TimerRuns, TimesOut, Expel, Emit, Adopt, AcceptNext, DropProbe, ConnectFailed, AdoptProbe;
  }

  /** How an event other than a queue head changes the peers. */
  predicate MembersAfterEvent(c: Core, e: Event, n: Members)
    requires e.PeerEmits? || e.PeerDestroyed? ==> e.peer in c.members.known
  {
    match e
    case PeerEmits(p, signal) => n == Emit(c.members, p, signal)
    case PeerCloseRuns(p) => n == ClosedMember(c.members, p)
    case PeerDestroyed(p) => n == Update(c.members, p, c.members.known[p].(released := true))
    case AcceptCompletes(op, result) =>
      n == if c.scope.IsCurrent(op.token) && result.Accepted? then Adopt(c.members, op.token) else c.members
    case RequestTimerRuns(id, _) =>
      || n == c.members
      || (id in c.requests.pending && c.requests.pending[id].peer.Some?
          && n == ExpelledMember(c.members, c.requests.pending[id].peer.value))
    case _ => n == c.members
  }

  /** How an event other than a queue head changes the acceptor. */
  predicate ListeningAfterEvent(c: Core, e: Event, m: Listening) {
    if !e.AcceptCompletes? then NoLongerListening(c.listening, m)
    else
      var done := c.listening.(accepts := c.listening.accepts - multiset{e.op});
      || (!c.scope.IsCurrent(e.op.token) && m == done)
      || (c.scope.IsCurrent(e.op.token) && e.result.Accepted? && m == AcceptNext(done, e.op.token))
      || (c.scope.IsCurrent(e.op.token) && e.result.AcceptFails? && m == done.(acceptor := None))
      || (c.scope.IsCurrent(e.op.token) && e.result.AcceptAborted? && m == done)
  }

  // -------------------------------------------------------------- identities

  /** Peer ids are used once: an accepted peer never overwrites another in the map. */
  ghost predicate MembersSound(m: Members) {
    && m.peers <= m.known.Keys
    && m.exposed <= m.known.Keys
    && (forall p :: p in m.known ==> p <= m.nextPeerId)
  }

  lemma DispatcherKeepsMembers(c: Core, task: DispatcherTask, verified: bool)
    requires MembersSound(c.members)
    ensures MembersSound(MembersAfterDispatcher(c, task, verified))
  {
  }

  lemma IoKeepsMembers(m: Members, task: IoTask)
    requires MembersSound(m)
    ensures MembersSound(MembersAfterIo(m, task))
  {
  }

  lemma EventKeepsMembers(c: Core, e: Event, n: Members)
    requires e.PeerEmits? || e.PeerDestroyed? ==> e.peer in c.members.known
    requires MembersSound(c.members) && MembersAfterEvent(c, e, n)
    ensures MembersSound(n)
  {
  }

  lemma StepKeepsMembersSound(s: Server, e: Event, invalidate: bool)
    requires MembersSound(s.core.members) && Enabled(s, e)
    ensures MembersSound(Step(s, e, invalidate).core.members)
  {
    hide MembersSound, RunDispatcherTask, RunIoTask, Happens, MayEmit, MembersAfterDispatcher, MembersAfterIo,
         MembersAfterEvent, ListeningAfterIo, ListeningAfterEvent;
    match e
    case RunDispatcher(verified) =>
      DispatcherFrame(s.core, s.dispatcher[0], verified);
      DispatcherKeepsMembers(s.core, s.dispatcher[0], verified);
    case RunIo(ok, order) =>
      IoFrame(s.core, s.io[0], ok, order);
      IoKeepsMembers(s.core.members, s.io[0]);
    case _ =>
      EventFrame(s.core, e, invalidate);
      EventKeepsMembers(s.core, e, Happens(s.core, e, invalidate).core.members);
  }

  // ------------------------------------------------------------------ tokens

  /** A token of the past, or of the running session. */
  predicate SessionToken(scope: Scope, token: Token) {
    token <= scope.generation && (token == scope.generation ==> scope.running)
  }

  ghost predicate CoreTokens(c: Core) {
    && (c.listening.acceptor.Some? ==> SessionToken(c.scope, c.listening.acceptor.value.token))
    && (forall op :: op in c.listening.accepts ==> SessionToken(c.scope, op.token))
    && (c.probing.timeout.Some? ==> SessionToken(c.scope, c.probing.timeout.value.token))
    && (forall p :: p in c.members.known ==> SessionToken(c.scope, c.members.known[p].token))
  }

  predicate DispatcherTaskToken(c: Core, task: DispatcherTask) {
    task.Notify? ==> task.token <= c.scope.generation
  }

  predicate IoTaskToken(c: Core, task: IoTask) {
    task.BindTask? || task.HealthCheckTask? ==> task.token <= c.scope.generation
  }

  /** Nothing carries a token from the future, and nothing that belongs to the
      current generation exists while the server is stopped. */
  ghost predicate TokensSound(s: Server) {
    && CoreTokens(s.core)
    && (forall task :: task in s.dispatcher ==> DispatcherTaskToken(s.core, task))
    && (forall task :: task in s.io ==> IoTaskToken(s.core, task))
  }

  ghost predicate EffectTokens(c: Core, f: Effect) {
    && c.scope.generation <= f.core.scope.generation
    && (forall task :: task in f.enqueued ==> DispatcherTaskToken(f.core, task))
    && (forall task :: task in f.posted ==> IoTaskToken(f.core, task))
  }

  lemma DispatcherEffectTokens(c: Core, task: DispatcherTask, verified: bool)
    requires CoreTokens(c) && DispatcherTaskToken(c, task)
    ensures EffectTokens(c, RunDispatcherTask(c, task, verified))
  {
    hide Judge, Settle;
  }

  /** Peers keep their tokens, and new ones belong to the running session. */
  ghost predicate SameTokens(scope: Scope, m: Members, n: Members) {
    forall p :: p in n.known ==>
      (p in m.known && n.known[p].token == m.known[p].token) || (p !in m.known && scope.IsCurrent(n.known[p].token))
  }

  lemma DispatcherMemberTokens(c: Core, task: DispatcherTask, verified: bool)
    ensures SameTokens(c.scope, c.members, MembersAfterDispatcher(c, task, verified))
  {
  }

  lemma IoMemberTokens(c: Core, task: IoTask)
    ensures SameTokens(c.scope, c.members, MembersAfterIo(c.members, task))
  {
  }

  lemma EventMemberTokens(c: Core, e: Event, n: Members)
    requires e.PeerEmits? || e.PeerDestroyed? ==> e.peer in c.members.known
    requires MembersAfterEvent(c, e, n) && MembersSound(c.members)
    ensures SameTokens(c.scope, c.members, n)
  {
  }

  lemma DispatcherKeepsTokens(c: Core, task: DispatcherTask, verified: bool)
    requires CoreTokens(c) && DispatcherTaskToken(c, task)
    ensures CoreTokens(RunDispatcherTask(c, task, verified).core)
  {
    hide RunDispatcherTask, MembersAfterDispatcher;
    DispatcherMemberTokens(c, task, verified);
    DispatcherFrame(c, task, verified);
  }

  /** A new probe is started by a current health-check task only. */
  predicate ProbeStarted(c: Core, task: IoTask, k: Probing) {
    task.HealthCheckTask? && c.scope.IsCurrent(task.token) && k.timeout.Some? && k.timeout.value.token == task.token
  }

  predicate ProbeKept(c: Core, k: Probing) {
    k.timeout.None? || k.timeout == c.probing.timeout
  }

  lemma IoEffectTokens(c: Core, task: IoTask, ok: bool, order: seq<PeerId>)
    requires IoTaskToken(c, task)
    ensures var f := RunIoTask(c, task, ok, order);
            EffectTokens(c, f) && forall t :: t in f.posted ==> !t.BindTask? && !t.StopTask? && !t.HealthCheckTask?
  {
    hide CompleteAll, CompletePeer, CompleteOfPeer, Add, Expel, Emit, Enumerates, Listen;
  }

  lemma IoEffectProbe(c: Core, task: IoTask, ok: bool, order: seq<PeerId>)
    ensures var k := RunIoTask(c, task, ok, order).core.probing; ProbeKept(c, k) || ProbeStarted(c, task, k)
  {
    hide CompleteAll, CompletePeer, CompleteOfPeer, Add, Expel, Emit, Enumerates, Listen, PeerCloseTasks;
  }

  lemma IoKeepsTokens(c: Core, task: IoTask, ok: bool, order: seq<PeerId>)
    requires CoreTokens(c) && IoTaskToken(c, task)
    ensures CoreTokens(RunIoTask(c, task, ok, order).core)
  {
    hide RunIoTask, MembersAfterIo;
    IoFrame(c, task, ok, order);
    IoMemberTokens(c, task);
    IoEffectProbe(c, task, ok, order);
  }

  lemma EventEffectTokens(c: Core, e: Event, invalidate: bool)
    requires e.PeerEmits? || e.PeerDestroyed? ==> e.peer in c.members.known
    requires e.AcceptCompletes? ==> e.op.token <= c.scope.generation
    ensures var f := Happens(c, e, invalidate);
            && EffectTokens(c, f) && ProbeKept(c, f.core.probing)
            && (forall t :: t in f.posted ==> !t.StopTask?)
  {
    hide CompletePeer, TimerRuns, TimesOut, Expel, Emit, Adopt, AcceptNext;
  }

  lemma ListeningTokens(c: Core, e: Event, m: Listening)
    requires CoreTokens(c) && ListeningAfterEvent(c, e, m)
    ensures m.acceptor.Some? ==> SessionToken(c.scope, m.acceptor.value.token)
    ensures forall op :: op in m.accepts ==> SessionToken(c.scope, op.token)
  {
  }

  lemma EventKeepsTokens(c: Core, e: Event, invalidate: bool)
    requires e.PeerEmits? || e.PeerDestroyed? ==> e.peer in c.members.known
    requires e.AcceptCompletes? ==> e.op.token <= c.scope.generation
    requires CoreTokens(c) && MembersSound(c.members)
    ensures CoreTokens(Happens(c, e, invalidate).core)
  {
    hide Happens, MembersAfterEvent, ListeningAfterEvent;
    var d := Happens(c, e, invalidate).core;
    EventFrame(c, e, invalidate);
    EventMemberTokens(c, e, d.members);
    ListeningTokens(c, e, d.listening);
    EventEffectTokens(c, e, invalidate);
  }

  lemma StepKeepsTokensSound(s: Server, e: Event, invalidate: bool)
    requires TokensSound(s) && MembersSound(s.core.members) && Enabled(s, e)
    ensures TokensSound(Step(s, e, invalidate))
  {
    hide CoreTokens, MembersSound, RunDispatcherTask, RunIoTask, Happens, MayEmit;
    StepQueues(s, e, invalidate);
    match e
    case RunDispatcher(verified) =>
      DispatcherEffectTokens(s.core, s.dispatcher[0], verified);
      DispatcherKeepsTokens(s.core, s.dispatcher[0], verified);
    case RunIo(ok, order) =>
      IoEffectTokens(s.core, s.io[0], ok, order);
      IoKeepsTokens(s.core, s.io[0], ok, order);
    case _ =>
      AcceptToken(s.core, e);
      EventEffectTokens(s.core, e, invalidate);
      EventKeepsTokens(s.core, e, invalidate);
  }

  lemma AcceptToken(c: Core, e: Event)
    requires CoreTokens(c) && (e.AcceptCompletes? ==> e.op in c.listening.accepts)
    ensures e.AcceptCompletes? ==> e.op.token <= c.scope.generation
  {
  }
}
