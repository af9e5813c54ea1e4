/** The server's session layer as a transition system: its fields, the dispatcher
    and I/O queues, the outstanding operations, and every handler. */
module ServerModel {
  import opened Common
  import opened NotificationScope
  import opened Requests

  /** An acceptor object, an async_accept on it, and one health-check probe, which
      the source identifies by its timeout timer. Each carries the token it was made under. */
  datatype Acceptor = Acceptor(id: nat, token: Token)
  datatype Accept = Accept(acceptor: Acceptor, token: Token)
  datatype Probe = Probe(id: nat, token: Token)

  /** What an accepted peer signals to the server. */
  datatype Signal =
    | Ready
    | Data(data: Bytes)
    | Request(id: RequestId, data: Bytes)
    | Response(id: RequestId, data: Bytes)
    | Error(code: ErrorCode)
    | Closing

  datatype SessionNote = Bound | BindFailed | ListenerClosed

  /** What the user of the server is told. */
  datatype UserNote =
    | OfSession(session: SessionNote)
    | PeerConnected(peer: PeerId)
    | PeerSignalled(peer: PeerId, signal: Signal)
    | PeerClosed(peer: PeerId)
  {
    predicate About(p: PeerId) {
      !OfSession? && peer == p
    }
  }

  datatype Notification = Deliver(session: SessionNote) | Verify(peer: PeerId)

  datatype DispatcherTask =
    | UserStart
    | UserStop
    | Notify(token: Token, notification: Notification)
    | PeerSlot(peer: PeerId, signal: Signal)
    | DeliverSignal(peer: PeerId, signal: Signal)
    | ProbeSlot(probe: Probe, answered: bool)
    | CancelRetry
    | DebounceRetry
    | StartChecks
    | StopChecks
    | RunCheck

  datatype IoTask =
    | BindTask(token: Token)
    | StopTask
    | HealthCheckTask(token: Token)
    | ClosePeerRequest(peer: PeerId)
    | PeerCloseTask(peer: PeerId, notify: bool)
    | ForwardResponse(peer: PeerId, id: RequestId, data: Bytes)
    | FailRequests(peer: PeerId, code: ErrorCode)
    | ForgetPeer(peer: PeerId)
    | ProbeResult(probe: Probe, answered: bool)
    | ProbeCloseTask(probe: Probe)
    | SendRequestTask(peer: PeerId)

  /** The acceptor and the outstanding async_accepts. */
  datatype Listening = Listening(acceptor: Option<Acceptor>, accepts: multiset<Accept>, nextId: nat)

  /** The health check: its two fields, the outstanding connects and timer waits, the
      cancelled timers, every probe peer ever made, and those whose close has not run. */
  datatype Probing = Probing(
    timeout: Option<Probe>,
    peer: Option<Probe>,
    connects: set<Probe>,
    timers: set<Probe>,
    cancelled: set<Probe>,
    made: set<Probe>,
    open: set<Probe>,
    nextId: nat)

  /** What happened to one accepted peer. `emitted` is everything it enqueued to the
      dispatcher for the user, `responses` the answers it enqueued, `handled` what the server's own dispatcher task then
      dealt with; `removed` is set by a local close, `released` by its destruction. */
  datatype PeerRecord = PeerRecord(
    token: Token,
    emitted: seq<Signal>,
    responses: set<Signal>,
    handled: seq<Signal>,
    verdict: Option<bool>,
    removed: bool,
    released: bool)
  {
    /** The peer's close has not run yet. */
    predicate Open() {
      Closing !in emitted
    }
  }

  /** `peers` are the keys of the peer map; `known` every peer ever accepted. */
  datatype Members = Members(
    peers: set<PeerId>,
    exposed: set<PeerId>,
    known: map<PeerId, PeerRecord>,
    nextPeerId: PeerId)

  /** A delivered note with the generation it was delivered under. */
  datatype Entry = Entry(note: UserNote, token: Token)

  /** `retryArmed` is the bind retry timer, `checking` the health-check timer. */
  datatype Core = Core(
    scope: Scope,
    listening: Listening,
    probing: Probing,
    members: Members,
    retryArmed: bool,
    checking: bool,
    requests: RequestTable,
    log: seq<Entry>)

  datatype Server = Server(core: Core, dispatcher: seq<DispatcherTask>, io: seq<IoTask>)

  /** What a handler does: the new fields, and the tasks it appends to the two queues. */
  datatype Effect = Effect(core: Core, enqueued: seq<DispatcherTask>, posted: seq<IoTask>)

  const InitialCore := Core(Initial, Listening(None, multiset{}, 0), Probing(None, None, {}, {}, {}, {}, {}, 0),
                            Members({}, {}, map[], 0), false, false, NoRequests, [])
  const InitialServer := Server(InitialCore, [], [])

  function Change(c: Core): Effect {
    Effect(c, [], [])
  }

  function Enqueue(c: Core, task: DispatcherTask): Effect {
    Effect(c, [task], [])
  }

  function Post(c: Core, task: IoTask): Effect {
    Effect(c, [], [task])
  }

  function Record(c: Core, note: UserNote): Core {
    c.(log := c.log + [Entry(note, c.scope.generation)])
  }

  /** The histories of one peer. */
  function Update(m: Members, p: PeerId, r: PeerRecord): Members {
    m.(known := m.known[p := r])
  }

  function Emit(m: Members, p: PeerId, signal: Signal): Members
    requires p in m.known
  {
    Update(m, p,
           if signal.Response? then m.known[p].(responses := m.known[p].responses + {signal})
           else m.known[p].(emitted := m.known[p].emitted + [signal]))
  }

  function Handle(m: Members, p: PeerId, signal: Signal): Members {
    if p in m.known then Update(m, p, m.known[p].(handled := m.known[p].handled + [signal])) else m
  }

  predicate Released(m: Members, p: PeerId) {
    p !in m.known || m.known[p].released
  }

  predicate IsOpen(m: Members, p: PeerId) {
    p in m.known && m.known[p].Open()
  }

  // ------------------------------------------------ handlers, dispatcher side

  function Bind(c: Core): Effect {
    Post(c, BindTask(c.scope.generation))
  }

  function StartServer(c: Core): Effect {
    Bind(c.(scope := Start(c.scope)))
  }

  function StopServer(c: Core): Effect {
    Effect(c.(scope := Stop(c.scope), members := c.members.(exposed := {})), [CancelRetry, StopChecks], [StopTask])
  }

  function ScheduleRetry(c: Core): Effect {
    Effect(c, if c.scope.running then [StopChecks, DebounceRetry] else [StopChecks], [])
  }

  function StartChecking(c: Core): Effect {
    if c.scope.running then Enqueue(c, StartChecks) else Change(c)
  }

  /** The user's verdict exposes the peer, or not. */
  function Judge(m: Members, p: PeerId, verified: bool): Members {
    var handled := Handle(m, p, Ready);
    if p !in handled.known then m
    else
      Update(handled, p, handled.known[p].(verdict := Some(verified)))
        .(exposed := if verified then m.exposed + {p} else m.exposed)
  }

  /** The ready notification: the peer is exposed or has its close requested. */
  function VerifyPeer(c: Core, p: PeerId, verified: bool): Effect {
    var judged := c.(members := Judge(c.members, p, verified));
    if verified then Change(Record(judged, PeerConnected(p))) else Post(judged, ClosePeerRequest(p))
  }

  function RunNotification(c: Core, token: Token, n: Notification, verified: bool): Effect {
    if !c.scope.IsCurrent(token) then Change(c)
    else
      match n
      case Deliver(note) =>
        var told := Record(c, OfSession(note));
        if note.Bound? then StartChecking(told) else ScheduleRetry(told)
      case Verify(p) => VerifyPeer(c, p, verified)
  }

  /** The slot a peer's signal is connected to. A released peer's slots never run. */
  function RunPeerSlot(c: Core, p: PeerId, signal: Signal): Effect {
    if Released(c.members, p) then Change(c)
    else
      match signal
      case Ready => Enqueue(c, Notify(c.members.known[p].token, Verify(p)))
      case Data(_) | Request(_, _) => Enqueue(c, DeliverSignal(p, signal))
      case Response(id, data) => Post(c, ForwardResponse(p, id, data))
      case Error(code) => Effect(c, [DeliverSignal(p, signal)], [FailRequests(p, code)])
      case Closing => Effect(c, [DeliverSignal(p, Closing)], [ForgetPeer(p)])
  }

  function Settle(m: Members, p: PeerId, signal: Signal): Members {
    var handled := Handle(m, p, signal);
    if signal.Closing? then handled.(exposed := m.exposed - {p}) else handled
  }

  /** The server's own task for a signal: the user hears of exposed peers only. */
  function RunDelivery(c: Core, p: PeerId, signal: Signal): Effect {
    var settled := c.(members := Settle(c.members, p, signal));
    if p !in c.members.exposed then Change(settled)
    else Change(Record(settled, if signal.Closing? then PeerClosed(p) else PeerSignalled(p, signal)))
  }

  function RunDispatcherTask(c: Core, task: DispatcherTask, verified: bool): Effect {
    match task
    case UserStart => StartServer(c)
    case UserStop => StopServer(c)
    case Notify(token, n) => RunNotification(c, token, n, verified)
    case PeerSlot(p, signal) => RunPeerSlot(c, p, signal)
    case DeliverSignal(p, signal) => RunDelivery(c, p, signal)
    case ProbeSlot(probe, answered) =>
      if c.scope.IsCurrent(probe.token) then Post(c, ProbeResult(probe, answered)) else Change(c)
    case CancelRetry => Change(c.(retryArmed := false))
    case DebounceRetry => Change(c.(retryArmed := true))
    case StartChecks => Enqueue(c.(checking := true), RunCheck)
    case StopChecks => Change(c.(checking := false))
    case RunCheck => Post(c, HealthCheckTask(c.scope.generation))
  }

  // ------------------------------------------------------- handlers, I/O side

  /** The bind task. `listens` is whether endpoint, open, bind and listen all succeed. */
  function RunBind(c: Core, token: Token, listens: bool): Effect {
    if !c.scope.IsCurrent(token) || c.listening.acceptor.Some? then Change(c)
    else if !listens then Enqueue(c, Notify(token, Deliver(BindFailed)))
    else Enqueue(c.(listening := Listen(c.listening, token)), Notify(token, Deliver(Bound)))
  }

  /** A new acceptor with a first accept. */
  function Listen(l: Listening, token: Token): Listening {
    var acceptor := Acceptor(l.nextId, token);
    Listening(Some(acceptor), l.accepts + multiset{Accept(acceptor, token)}, l.nextId + 1)
  }

  datatype AcceptResult = Accepted | AcceptFails | AcceptAborted

  function AcceptCompleted(c: Core, op: Accept, result: AcceptResult): Effect {
    var done := c.(listening := c.listening.(accepts := c.listening.accepts - multiset{op}));
    if !c.scope.IsCurrent(op.token) then Change(done) else RunAccept(done, op.token, result)
  }

  function RunAccept(c: Core, token: Token, result: AcceptResult): Effect {
    match result
    case Accepted => Change(AdoptSocket(c, token))
    case AcceptFails => Enqueue(c.(listening := c.listening.(acceptor := None)), Notify(token, Deliver(ListenerClosed)))
    case AcceptAborted => Change(c)
  }

  /** An accepted socket becomes a new peer, and the next accept starts if there is an acceptor. */
  function AdoptSocket(c: Core, token: Token): Core {
    c.(members := Adopt(c.members, token), listening := AcceptNext(c.listening, token))
  }

  function Adopt(m: Members, token: Token): Members {
    var p, accepted := m.nextPeerId + 1, PeerRecord(token, [], {}, [], None, false, false);
    m.(peers := m.peers + {p}, known := m.known[p := accepted], nextPeerId := p)
  }

  function AcceptNext(l: Listening, token: Token): Listening {
    if l.acceptor.None? then l
    else l.(accepts := l.accepts + multiset{Accept(l.acceptor.value, token)})
  }

  /** A local close: the map entry goes at once, the notification follows the socket's close. */
  function ClosePeer(c: Core, p: PeerId): Effect {
    if p !in c.members.peers || p !in c.members.known then Change(c)
    else
      Post(c.(requests := CompletePeer(c.requests, p, OperationAborted), members := Expel(c.members, p)),
           PeerCloseTask(p, true))
  }

  function Expel(m: Members, p: PeerId): Members
    requires p in m.known
  {
    Update(m, p, m.known[p].(removed := true)).(peers := m.peers - {p})
  }

  /** The peer's close: it signals `closed` only if its socket was still open. */
  function PeerCloses(c: Core, p: PeerId, notify: bool): Effect {
    var completion := if notify then [DeliverSignal(p, Closing)] else [];
    if IsOpen(c.members, p) then
      Effect(c.(members := Emit(c.members, p, Closing)), [PeerSlot(p, Closing)] + completion, [])
    else Effect(c, completion, [])
  }

  function Remove(c: Core, p: PeerId): Core {
    c.(requests := CompletePeer(c.requests, p, ConnectionReset), members := c.members.(peers := c.members.peers - {p}))
  }

  /** `order` is the order the hash map is iterated in. */
  predicate Enumerates(order: seq<PeerId>, peers: set<PeerId>) {
    && (forall i, j :: 0 <= i < j < |order| ==> order[i] != order[j])
    && (forall p :: p in order ==> p in peers)
    && (forall p :: p in peers ==> p in order)
  }

  function PeerCloseTasks(order: seq<PeerId>): seq<IoTask> {
    seq(|order|, i requires 0 <= i < |order| => PeerCloseTask(order[i], false))
  }

  function StopTaskRuns(c: Core, order: seq<PeerId>): Effect {
    CloseProbe(c.(listening := c.listening.(acceptor := None),
                  requests := CompleteAll(c.requests, OperationAborted),
                  members := c.members.(peers := {})),
               [], PeerCloseTasks(order))
  }

  function SendRequest(c: Core, p: PeerId): Effect {
    if p in c.members.peers then Change(c.(requests := Add(c.requests, Pending(Some(p), p)))) else Change(c)
  }

  /** A timed-out request closes its connection if the option says so. */
  function RequestTimer(c: Core, id: RequestId, expired: bool, invalidate: bool): Effect {
    var ran := c.(requests := TimerRuns(c.requests, id, expired));
    if TimesOut(c.requests, id, expired) && invalidate && c.requests.pending[id].peer.Some? then
      ClosePeer(ran, c.requests.pending[id].peer.value)
    else Change(ran)
  }

  // ------------------------------------------------------------ health check

  predicate IsCurrentProbe(c: Core, probe: Probe) {
    c.scope.IsCurrent(probe.token) && c.probing.timeout == Some(probe)
  }

  /** Cancels the probe's timer and drops its peer, */
  function DropProbe(k: Probing): Probing {
    k.(timeout := None, peer := None,
       cancelled := if k.timeout.Some? then k.cancelled + {k.timeout.value} else k.cancelled)
  }

  /** whose close is posted. */
  function DropTasks(k: Probing): seq<IoTask> {
    if k.peer.Some? then [ProbeCloseTask(k.peer.value)] else []
  }

  function CloseProbe(c: Core, enqueued: seq<DispatcherTask>, posted: seq<IoTask>): Effect {
    Effect(c.(probing := DropProbe(c.probing)), enqueued, posted + DropTasks(c.probing))
  }

  function ProbeFailed(c: Core, probe: Probe): Effect {
    if !IsCurrentProbe(c, probe) then Change(c)
    else
      CloseProbe(c.(listening := c.listening.(acceptor := None)), [Notify(probe.token, Deliver(ListenerClosed))], [])
  }

  function RunHealthCheck(c: Core, token: Token, endpointOk: bool): Effect {
    if !c.scope.IsCurrent(token) || c.listening.acceptor.None? || c.probing.timeout.Some? then Change(c)
    else
      var probe := Probe(c.probing.nextId, token);
      var started := c.(probing := c.probing.(timeout := Some(probe), nextId := probe.id + 1));
      if !endpointOk then ProbeFailed(started, probe)
      else Change(started.(probing := AwaitProbe(started.probing, probe)))
  }

  /** The probe's timer and its connect are started. */
  function AwaitProbe(k: Probing, probe: Probe): Probing {
    k.(timers := k.timers + {probe}, connects := k.connects + {probe})
  }

  function ProbeConnected(c: Core, probe: Probe, ok: bool): Effect {
    if !IsCurrentProbe(c, probe) then Change(c.(probing := ConnectFailed(c.probing, probe)))
    else if !ok then ProbeFailed(c.(probing := ConnectFailed(c.probing, probe)), probe)
    else Change(c.(probing := AdoptProbe(c.probing, probe)))
  }

  function ConnectFailed(k: Probing, probe: Probe): Probing {
    k.(connects := k.connects - {probe}, cancelled := k.cancelled + {probe})
  }

  function AdoptProbe(k: Probing, probe: Probe): Probing {
    k.(connects := k.connects - {probe}, peer := Some(probe), made := k.made + {probe}, open := k.open + {probe})
  }

  function ProbeTimer(c: Core, probe: Probe, expired: bool): Effect {
    var waited := c.(probing := c.probing.(timers := c.probing.timers - {probe}));
    if expired then ProbeFailed(waited, probe) else Change(waited)
  }

  function ProbeAnswered(c: Core, probe: Probe, answered: bool): Effect {
    if !answered then ProbeFailed(c, probe)
    else if IsCurrentProbe(c, probe) then CloseProbe(c, [], [])
    else Change(c)
  }

  function ProbeCloses(c: Core, probe: Probe): Effect {
    if probe in c.probing.open then
      Enqueue(c.(probing := c.probing.(open := c.probing.open - {probe})), ProbeSlot(probe, false))
    else Change(c)
  }

  function RunIoTask(c: Core, task: IoTask, ok: bool, order: seq<PeerId>): Effect {
    match task
    case BindTask(token) => RunBind(c, token, ok)
    case StopTask => StopTaskRuns(c, order)
    case HealthCheckTask(token) => RunHealthCheck(c, token, ok)
    case ClosePeerRequest(p) => ClosePeer(c, p)
    case PeerCloseTask(p, notify) => PeerCloses(c, p, notify)
    case ForwardResponse(p, id, data) =>
      if p in c.members.peers then Change(c.(requests := CompleteOfPeer(c.requests, p, id, Answered(p, id, data))))
      else Change(c)
    case FailRequests(p, code) => Change(c.(requests := CompletePeer(c.requests, p, code)))
    case ForgetPeer(p) => Change(Remove(c, p))
    case ProbeResult(probe, answered) => ProbeAnswered(c, probe, answered)
    case ProbeCloseTask(probe) => ProbeCloses(c, probe)
    case SendRequestTask(p) => SendRequest(c, p)
  }

  // ----------------------------------------------------- transition system

  /** Calls of the user, queue heads, and completions, in any order. */
  datatype Event =
    | CallStart
    | CallStop
    | CallRequest(peer: PeerId)
    | CallClosePeer(peer: PeerId)
    | RunDispatcher(verified: bool)
    | RunIo(ok: bool, order: seq<PeerId>)
    | AcceptCompletes(op: Accept, result: AcceptResult)
    | RetryTimer
    | HealthCheckTimer
    | RequestTimerRuns(id: RequestId, expired: bool)
    | PeerEmits(peer: PeerId, signal: Signal)
    | PeerCloseRuns(peer: PeerId)
    | PeerDestroyed(peer: PeerId)
    | ProbeConnectCompletes(probe: Probe, ok: bool)
    | ProbeTimerRuns(probe: Probe, expired: bool)
    | ProbeEmits(probe: Probe, answered: bool)
    | ProbeCloseRuns(probe: Probe)

  /** A peer becomes ready once, hands nothing over before that, and announces its
      close only when it runs. */
  predicate MayEmit(r: PeerRecord, signal: Signal) {
    && !r.released
    && !signal.Closing?
    && (signal.Ready? ==> Ready !in r.emitted)
    && (signal.Data? || signal.Request? || signal.Response? ==> Ready in r.emitted)
  }

  /** The last reference to a peer goes only when neither the map nor a posted close holds it. */
  predicate MayBeDestroyed(s: Server, p: PeerId) {
    && p in s.core.members.known
    && p !in s.core.members.peers
    && !s.core.members.known[p].Open()
    && PeerCloseTask(p, true) !in s.io && PeerCloseTask(p, false) !in s.io
  }

  predicate Enabled(s: Server, e: Event) {
    match e
    case RunDispatcher(_) => s.dispatcher != []
    case RunIo(_, order) => s.io != [] && (s.io[0].StopTask? ==> Enumerates(order, s.core.members.peers))
    case AcceptCompletes(op, result) =>
      op in s.core.listening.accepts && (result.AcceptAborted? ==> s.core.listening.acceptor != Some(op.acceptor))
    case RetryTimer => s.core.retryArmed
    case HealthCheckTimer => s.core.checking
    case RequestTimerRuns(id, expired) => id in s.core.requests.timers && (expired || id !in s.core.requests.pending)
    case PeerEmits(p, signal) => p in s.core.members.known && MayEmit(s.core.members.known[p], signal)
    case PeerCloseRuns(p) => p in s.core.members.known
    case PeerDestroyed(p) => MayBeDestroyed(s, p)
    case ProbeConnectCompletes(probe, _) => probe in s.core.probing.connects
    case ProbeTimerRuns(probe, expired) =>
      probe in s.core.probing.timers && (expired || probe in s.core.probing.cancelled)
    case ProbeEmits(probe, _) => probe in s.core.probing.made
    case ProbeCloseRuns(probe) => probe in s.core.probing.made
    case _ => true
  }

  function EmitSignal(c: Core, p: PeerId, signal: Signal): Effect
    requires p in c.members.known
  {
    Enqueue(c.(members := Emit(c.members, p, signal)), PeerSlot(p, signal))
  }

  /** What an event that is not a queue head does to the fields. */
  function Happens(c: Core, e: Event, invalidate: bool): Effect
    requires e.PeerEmits? || e.PeerDestroyed? ==> e.peer in c.members.known
  {
    match e
    case CallStart => Enqueue(c, UserStart)
    case CallStop => Enqueue(c, UserStop)
    case CallRequest(p) => Post(c, SendRequestTask(p))
    case CallClosePeer(p) => Post(c, ClosePeerRequest(p))
    case AcceptCompletes(op, result) => AcceptCompleted(c, op, result)
    case RetryTimer => if c.scope.running then Bind(c.(retryArmed := false)) else Change(c.(retryArmed := false))
    case HealthCheckTimer => Enqueue(c, RunCheck)
    case RequestTimerRuns(id, expired) => RequestTimer(c, id, expired, invalidate)
    case PeerEmits(p, signal) => EmitSignal(c, p, signal)
    case PeerCloseRuns(p) => PeerCloses(c, p, false)
    case PeerDestroyed(p) => Change(c.(members := Update(c.members, p, c.members.known[p].(released := true))))
    case ProbeConnectCompletes(probe, ok) => ProbeConnected(c, probe, ok)
    case ProbeTimerRuns(probe, expired) => ProbeTimer(c, probe, expired)
    case ProbeEmits(probe, answered) => Enqueue(c, ProbeSlot(probe, answered))
    case ProbeCloseRuns(probe) => ProbeCloses(c, probe)
    case RunDispatcher(_) | RunIo(_, _) => Change(c)
  }

  function EffectOf(s: Server, e: Event, invalidate: bool): Effect
    requires Enabled(s, e)
  {
    match e
    case RunDispatcher(verified) => RunDispatcherTask(s.core, s.dispatcher[0], verified)
    case RunIo(ok, order) => RunIoTask(s.core, s.io[0], ok, order)
    case _ => Happens(s.core, e, invalidate)
  }

  /** The queues an event leaves before its effect is appended. */
  function Remaining(s: Server, e: Event): Server
    requires Enabled(s, e)
  {
    match e
    case RunDispatcher(_) => s.(dispatcher := s.dispatcher[1..])
    case RunIo(_, _) => s.(io := s.io[1..])
    case _ => s
  }

  function Apply(s: Server, effect: Effect): Server {
    Server(effect.core, s.dispatcher + effect.enqueued, s.io + effect.posted)
  }

  /** One atomic handler, or one call. `invalidate` is the option that lets a
      request timeout close the connection. */
  function Step(s: Server, e: Event, invalidate: bool): Server {
    if Enabled(s, e) then Apply(Remaining(s, e), EffectOf(s, e, invalidate)) else s
  }

  function Run(s: Server, events: seq<Event>, invalidate: bool): Server
    decreases |events|
  {
    if events == [] then s else Run(Step(s, events[0], invalidate), events[1..], invalidate)
  }
}
