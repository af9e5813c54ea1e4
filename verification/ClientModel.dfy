/** The client's session layer as a transition system: its fields, the dispatcher
    and I/O queues, the outstanding operations, and every handler. */
module ClientModel {
  import opened Common
  import opened NotificationScope
  import opened Requests

  /** A socket or peer object: a unique id and the token it was created under. */
  datatype Handle = Handle(id: nat, token: Token)

  /** What a peer signals to its owner. */
  datatype Signal =
    | Data(data: Bytes)
    | Request(id: RequestId, data: Bytes)
    | Response(id: RequestId, data: Bytes)
    | Error(code: ErrorCode)
    | Closing

  /** What the user of the client is told; a failure records the token of its attempt. */
  datatype UserNote =
    | ConnectFailed(attempt: Token)
    | VerificationFailed(attempt: Token)
    | Connected(peer: Handle)
    | Received(peer: Handle, data: Bytes)
    | RequestReceived(peer: Handle, id: RequestId, data: Bytes)
    | ErrorOccurred(peer: Handle, code: ErrorCode)
    | Closed(peer: Handle)
  {
    /** The notes after which a reconnect is scheduled. */
    predicate Reschedules() {
      ConnectFailed? || VerificationFailed? || Closed?
    }

    predicate About(p: Handle) {
      !ConnectFailed? && !VerificationFailed? && peer == p
    }

    /** The session a note comes from. */
    function Origin(): Token {
      if ConnectFailed? || VerificationFailed? then attempt else peer.token
    }

    /** A note about `p` that must lie between its `Connected` and its `Closed`. */
    predicate Inner(p: Handle) {
      About(p) && !Connected? && !Closed?
    }
  }

  datatype Notification = Deliver(note: UserNote) | Verify(socket: Handle) | Reschedule

  datatype DispatcherTask =
    | UserStart
    | UserStop
    | UserInvalidate
    | Notify(token: Token, notification: Notification)
    | SignalSlot(peer: Handle, signal: Signal)
    | CancelReconnect
    | DebounceReconnect

  datatype IoTask =
    | ConnectTask(token: Token)
    | HandleConnected(socket: Handle, verified: bool)
    | StopTask
    | InvalidateTask(token: Token)
    | AnnouncePeer(peer: Handle)
    | ForwardSignal(peer: Handle, signal: Signal)
    | ClosePeerTask(peer: Handle)
    | SendRequestTask

  /** `connects` are the outstanding async_connects; `peers` every peer ever made, `live`
      those whose close has not run yet, `ended` those given up for their own `closed`. */
  datatype Session = Session(
    connecting: Option<Handle>,
    peer: Option<Handle>,
    connects: set<Handle>,
    peers: set<Handle>,
    live: set<Handle>,
    ended: set<Handle>,
    nextId: nat)

  /** A delivered note with the generation it was delivered under. */
  datatype Entry = Entry(note: UserNote, token: Token)

  /** A signal a peer enqueued to the dispatcher. */
  datatype Emission = Emission(peer: Handle, signal: Signal)

  /** The fields of the client. `captured` is the token each request's timeout callback
      captured; `armed` is the pending reconnect timer. Histories: what the peers signalled
      and what the user has been told. */
  datatype Core = Core(
    scope: Scope,
    session: Session,
    armed: bool,
    requests: RequestTable,
    captured: map<RequestId, Token>,
    emitted: seq<Emission>,
    log: seq<Entry>)

  datatype Client = Client(core: Core, dispatcher: seq<DispatcherTask>, io: seq<IoTask>)

  /** What a handler does: the new fields, and the tasks it appends to the two queues. */
  datatype Effect = Effect(core: Core, enqueued: seq<DispatcherTask>, posted: seq<IoTask>)

  const InitialSession := Session(None, None, {}, {}, {}, {}, 0)
  const InitialCore := Core(Initial, InitialSession, false, NoRequests, map[], [], [])
  const InitialClient := Client(InitialCore, [], [])

  function Change(c: Core): Effect {
    Effect(c, [], [])
  }

  function Enqueue(c: Core, task: DispatcherTask): Effect {
    Effect(c, [task], [])
  }

  function Post(c: Core, task: IoTask): Effect {
    Effect(c, [], [task])
  }

  function Tell(c: Core, token: Token, note: UserNote): Effect {
    Enqueue(c, Notify(token, Deliver(note)))
  }

  // ------------------------------------------------ handlers, dispatcher side

  function Connect(c: Core): Effect {
    Post(c, ConnectTask(c.scope.generation))
  }

  function StartClient(c: Core): Effect {
    Connect(c.(scope := Start(c.scope)))
  }

  function StopClient(c: Core): Effect {
    Effect(c.(scope := Stop(c.scope)), [CancelReconnect], [StopTask])
  }

  function InvalidateClient(c: Core): Effect {
    var scope := Invalidate(c.scope);
    Effect(c.(scope := scope), [CancelReconnect], [InvalidateTask(scope.generation)])
  }

  function ScheduleReconnect(c: Core): Effect {
    if c.scope.running then Enqueue(c, DebounceReconnect) else Change(c)
  }

  function DeliverNote(c: Core, note: UserNote): Effect {
    var told := c.(log := c.log + [Entry(note, c.scope.generation)]);
    if note.Reschedules() then ScheduleReconnect(told) else Change(told)
  }

  function RunNotification(c: Core, token: Token, n: Notification, verified: bool): Effect {
    if !c.scope.IsCurrent(token) then Change(c)
    else
      match n
      case Deliver(note) => DeliverNote(c, note)
      case Verify(socket) => Post(c, HandleConnected(socket, verified))
      case Reschedule => ScheduleReconnect(c)
  }

  function RunDispatcherTask(c: Core, task: DispatcherTask, verified: bool): Effect {
    match task
    case UserStart => StartClient(c)
    case UserStop => StopClient(c)
    case UserInvalidate => InvalidateClient(c)
    case Notify(token, n) => RunNotification(c, token, n, verified)
    case SignalSlot(peer, signal) => Post(c, ForwardSignal(peer, signal))
    case CancelReconnect => Change(c.(armed := false))
    case DebounceReconnect => Change(c.(armed := true))
  }

  // ------------------------------------------------------- handlers, I/O side

  /** The connect task. `endpointOk` is whether an endpoint can be made from the path. */
  function RunConnect(c: Core, token: Token, endpointOk: bool): Effect {
    if !c.scope.IsCurrent(token) || c.session.connecting.Some? || c.session.peer.Some? then Change(c)
    else if !endpointOk then Tell(c, token, ConnectFailed(token))
    else
      var socket := Handle(c.session.nextId, token);
      Change(c.(session := c.session.(connecting := Some(socket), connects := c.session.connects + {socket},
                                      nextId := c.session.nextId + 1)))
  }

  function ConnectCompleted(c: Core, socket: Handle, ok: bool): Effect {
    var connects := c.session.connects - {socket};
    if !c.scope.running || c.session.connecting != Some(socket) then
      Change(c.(session := c.session.(connects := connects)))
    else if !ok then
      Tell(c.(session := c.session.(connects := connects, connecting := None)), socket.token,
           ConnectFailed(socket.token))
    else Enqueue(c.(session := c.session.(connects := connects)), Notify(socket.token, Verify(socket)))
  }

  function ConnectedSocket(c: Core, socket: Handle, verified: bool): Effect {
    if c.session.connecting != Some(socket) then Change(c)
    else
      var taken := c.session.(connecting := None);
      if !c.scope.IsCurrent(socket.token) then Change(c.(session := taken))
      else if !verified then Tell(c.(session := taken), socket.token, VerificationFailed(socket.token))
      else AdoptPeer(c.(session := taken), socket.token)
  }

  /** The connected socket becomes a new peer, announced by a later I/O task. */
  function AdoptPeer(c: Core, token: Token): Effect {
    var p := Handle(c.session.nextId, token);
    Post(c.(session := c.session.(peer := Some(p), peers := c.session.peers + {p}, live := c.session.live + {p},
                                  nextId := c.session.nextId + 1)),
         AnnouncePeer(p))
  }

  function ClosePeer(c: Core, code: ErrorCode): Effect {
    if c.session.peer.None? then Change(c)
    else
      Post(c.(requests := CompleteAll(c.requests, code), session := c.session.(peer := None)),
           ClosePeerTask(c.session.peer.value))
  }

  function CloseConnections(c: Core): Effect {
    ClosePeer(c.(session := c.session.(connecting := None)), OperationAborted)
  }

  function Announce(c: Core, p: Handle): Effect {
    if c.session.peer == Some(p) then Tell(c, p.token, Connected(p)) else Change(c)
  }

  function Forward(c: Core, p: Handle, signal: Signal): Effect {
    if c.session.peer != Some(p) then Change(c)
    else
      match signal
      case Data(data) => Tell(c, p.token, Received(p, data))
      case Request(id, data) => Tell(c, p.token, RequestReceived(p, id, data))
      case Response(id, data) => Change(c.(requests := Complete(c.requests, id, Answered(p.id, id, data))))
      case Error(code) => Tell(c.(requests := CompleteAll(c.requests, code)), p.token, ErrorOccurred(p, code))
      case Closing =>
        Tell(c.(requests := CompleteAll(c.requests, ConnectionReset),
                session := c.session.(peer := None, ended := c.session.ended + {p})),
             p.token, Closed(p))
  }

  function EmitSignal(c: Core, p: Handle, signal: Signal): Effect {
    Enqueue(c.(emitted := c.emitted + [Emission(p, signal)]), SignalSlot(p, signal))
  }

  /** The peer's close: it signals `closed` only if its socket was still open. */
  function PeerCloses(c: Core, p: Handle): Effect {
    if p in c.session.live then
      EmitSignal(c.(session := c.session.(live := c.session.live - {p})), p, Closing)
    else Change(c)
  }

  /** Without a peer the caller is told `not_connected` and nothing becomes pending. */
  function SendRequest(c: Core): Effect {
    if c.session.peer.None? then Change(c)
    else
      var requests := Add(c.requests, Pending(None, c.session.peer.value.id));
      Change(c.(requests := requests, captured := c.captured[requests.nextId := c.scope.generation]))
  }

  function RequestTimer(c: Core, id: RequestId, expired: bool, invalidate: bool): Effect {
    var ran := c.(requests := TimerRuns(c.requests, id, expired));
    if TimesOut(c.requests, id, expired) && invalidate && c.session.peer.Some? && id in c.captured then
      ClosePeer(ran, ConnectionReset).(enqueued := [Notify(c.captured[id], Deliver(Closed(c.session.peer.value)))])
    else Change(ran)
  }

  function RunIoTask(c: Core, task: IoTask, endpointOk: bool): Effect {
    match task
    case ConnectTask(token) => RunConnect(c, token, endpointOk)
    case HandleConnected(socket, verified) => ConnectedSocket(c, socket, verified)
    case StopTask => CloseConnections(c)
    case InvalidateTask(token) => CloseConnections(c).(enqueued := [Notify(token, Reschedule)])
    case AnnouncePeer(p) => Announce(c, p)
    case ForwardSignal(p, signal) => Forward(c, p, signal)
    case ClosePeerTask(p) => PeerCloses(c, p)
    case SendRequestTask => SendRequest(c)
  }

  // ----------------------------------------------------- transition system

  /** Calls of the user, queue heads, and completions, in any order. */
  datatype Event =
    | CallStart
    | CallStop
    | CallInvalidate
    | CallRequest
    | RunDispatcher(verified: bool)
    | RunIo(endpointOk: bool)
    | ConnectCompletes(socket: Handle, ok: bool)
    | ReconnectTimer
    | RequestTimerRuns(id: RequestId, expired: bool)
    | PeerEmits(peer: Handle, signal: Signal)
    | PeerCloseRuns(peer: Handle)

  predicate Enabled(s: Client, e: Event) {
    match e
    case RunDispatcher(_) => s.dispatcher != []
    case RunIo(_) => s.io != []
    case ConnectCompletes(socket, _) => socket in s.core.session.connects
    case ReconnectTimer => s.core.armed
    case RequestTimerRuns(id, expired) => id in s.core.requests.timers && (expired || id !in s.core.requests.pending)
    case PeerEmits(p, signal) => p in s.core.session.peers && !signal.Closing?
    case PeerCloseRuns(p) => p in s.core.session.peers
    case _ => true
  }

  /** What an event that is not a queue head does to the fields. */
  function Happens(c: Core, e: Event, invalidate: bool): Effect {
    match e
    case CallStart => Enqueue(c, UserStart)
    case CallStop => Enqueue(c, UserStop)
    case CallInvalidate => Enqueue(c, UserInvalidate)
    case CallRequest => Post(c, SendRequestTask)
    case ConnectCompletes(socket, ok) => ConnectCompleted(c, socket, ok)
    case ReconnectTimer => if c.scope.running then Connect(c.(armed := false)) else Change(c.(armed := false))
    case RequestTimerRuns(id, expired) => RequestTimer(c, id, expired, invalidate)
    case PeerEmits(p, signal) => EmitSignal(c, p, signal)
    case PeerCloseRuns(p) => PeerCloses(c, p)
    case RunDispatcher(_) | RunIo(_) => Change(c)
  }

  function EffectOf(s: Client, e: Event, invalidate: bool): Effect
    requires Enabled(s, e)
  {
    match e
    case RunDispatcher(verified) => RunDispatcherTask(s.core, s.dispatcher[0], verified)
    case RunIo(endpointOk) => RunIoTask(s.core, s.io[0], endpointOk)
    case _ => Happens(s.core, e, invalidate)
  }

  /** The queues an event leaves before its effect is appended. */
  function Remaining(s: Client, e: Event): Client
    requires Enabled(s, e)
  {
    match e
    case RunDispatcher(_) => s.(dispatcher := s.dispatcher[1..])
    case RunIo(_) => s.(io := s.io[1..])
    case _ => s
  }

  function Apply(s: Client, effect: Effect): Client {
    Client(effect.core, s.dispatcher + effect.enqueued, s.io + effect.posted)
  }

  /** One atomic handler, or one call. `invalidate` is the option that lets a
      request timeout close the connection. */
  function Step(s: Client, e: Event, invalidate: bool): Client {
    if Enabled(s, e) then Apply(Remaining(s, e), EffectOf(s, e, invalidate)) else s
  }

  function Run(s: Client, events: seq<Event>, invalidate: bool): Client
    decreases |events|
  {
    if events == [] then s else Run(Step(s, events[0], invalidate), events[1..], invalidate)
  }
}
