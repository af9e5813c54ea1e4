/** The client object: handlers that update its fields and append to the two
    queues, each proved to have the model's effect. */
module ClientState {
  import opened Common
  import Scopes = NotificationScope
  import opened Requests
  import Manager = RequestManager
  import Model = ClientModel
  import Proofs = ClientTheorems

  class ClientState {
    const notificationScope: Scopes.NotificationScope
    const requestManager: Manager.RequestManager
    const invalidateConnectionOnRequestError: bool

    var connectingSocket: Option<Model.Handle>
    var peer: Option<Model.Handle>
    var reconnectArmed: bool
    // the queues, and the operations and objects the I/O library keeps
    var dispatcher: seq<Model.DispatcherTask>
    var io: seq<Model.IoTask>
    var connects: set<Model.Handle>
    var peers: set<Model.Handle>
    var live: set<Model.Handle>
    var ended: set<Model.Handle>
    var nextId: nat
    // tokens captured by the timeout callbacks of requests
    var captured: map<RequestId, Scopes.Token>
    // histories: what the peers signalled, and what the user was told
    var emitted: seq<Model.Emission>
    var log: seq<Model.Entry>

    ghost function Session(): Model.Session
      reads `connectingSocket, `peer, `connects, `peers, `live, `ended, `nextId
    {
      Model.Session(connectingSocket, peer, connects, peers, live, ended, nextId)
    }

    ghost function Core(): Model.Core
      reads this, notificationScope, requestManager
    {
      Model.Core(notificationScope.View(), Session(), reconnectArmed, requestManager.View(), captured, emitted, log)
    }

    ghost function View(): Model.Client
      reads this, notificationScope, requestManager
    {
      Model.Client(Core(), dispatcher, io)
    }

    ghost predicate Valid()
      reads this, notificationScope, requestManager
    {
      Proofs.ClientInvariant(View())
    }

    constructor (invalidateConnectionOnRequestError: bool)
      ensures View() == Model.InitialClient && Valid()
      ensures fresh(notificationScope) && fresh(requestManager)
    {
      this.invalidateConnectionOnRequestError := invalidateConnectionOnRequestError;
      var scope := new Scopes.NotificationScope();
      var manager := new Manager.RequestManager();
      notificationScope, requestManager := scope, manager;
      connectingSocket, peer, reconnectArmed := None, None, false;
      dispatcher, io := [], [];
      connects, peers, live, ended, nextId := {}, {}, {}, {}, 0;
      captured, emitted, log := map[], [], [];
      new;
      Proofs.InitialClientInvariant();
    }

    method Enqueue(task: Model.DispatcherTask)
      modifies `dispatcher
      ensures dispatcher == old(dispatcher) + [task]
    {
      dispatcher := dispatcher + [task];
    }

    method Post(task: Model.IoTask)
      modifies `io
      ensures io == old(io) + [task]
    {
      io := io + [task];
    }

    // -------------------------------------------- handlers, dispatcher side

    method Connect()
      modifies `io
      ensures View() == Model.Apply(old(View()), Model.Connect(old(Core())))
    {
      var token := notificationScope.Capture();
      Post(Model.ConnectTask(token));
    }

    method Start()
      modifies `io, notificationScope
      ensures View() == Model.Apply(old(View()), Model.StartClient(old(Core())))
    {
      notificationScope.Start();
      Connect();
    }

    method Stop()
      modifies `dispatcher, `io, notificationScope
      ensures View() == Model.Apply(old(View()), Model.StopClient(old(Core())))
    {
      notificationScope.Stop();
      Enqueue(Model.CancelReconnect);
      Post(Model.StopTask);
    }

    method InvalidateConnection()
      modifies `dispatcher, `io, notificationScope
      ensures View() == Model.Apply(old(View()), Model.InvalidateClient(old(Core())))
    {
      notificationScope.Invalidate();
      Enqueue(Model.CancelReconnect);
      var token := notificationScope.Capture();
      Post(Model.InvalidateTask(token));
    }

    method ScheduleReconnect()
      modifies `dispatcher
      ensures View() == Model.Apply(old(View()), Model.ScheduleReconnect(old(Core())))
    {
      if !notificationScope.running {
        return;
      }
      Enqueue(Model.DebounceReconnect);
    }

    /** A session notification, delivered only while its token is current. */
    method RunNotification(token: Scopes.Token, notification: Model.Notification, verified: bool)
      modifies `dispatcher, `io, `log
      ensures View() == Model.Apply(old(View()), Model.RunNotification(old(Core()), token, notification, verified))
    {
      if !notificationScope.View().IsCurrent(token) {
        return;
      }
      match notification {
        case Deliver(note) =>
          log := log + [Model.Entry(note, notificationScope.generation)];
          if note.Reschedules() {
            ScheduleReconnect();
          }
        case Verify(socket) =>
          Post(Model.HandleConnected(socket, verified));
        case Reschedule =>
          ScheduleReconnect();
      }
    }

    method RunDispatcherTask(task: Model.DispatcherTask, verified: bool)
      modifies `dispatcher, `io, `log, `reconnectArmed, notificationScope
      ensures View() == Model.Apply(old(View()), Model.RunDispatcherTask(old(Core()), task, verified))
    {
      match task {
        case UserStart => Start();
        case UserStop => Stop();
        case UserInvalidate => InvalidateConnection();
        case Notify(token, notification) => RunNotification(token, notification, verified);
        case SignalSlot(p, signal) => Post(Model.ForwardSignal(p, signal));
        case CancelReconnect => reconnectArmed := false;
        case DebounceReconnect => reconnectArmed := true;
      }
    }

    // --------------------------------------------------- handlers, I/O side

    method RunConnect(token: Scopes.Token, endpointOk: bool)
      modifies `dispatcher, `connectingSocket, `connects, `nextId
      ensures View() == Model.Apply(old(View()), Model.RunConnect(old(Core()), token, endpointOk))
    {
      if !notificationScope.View().IsCurrent(token) || connectingSocket.Some? || peer.Some? {
        return;
      }
      if !endpointOk {
        Enqueue(Model.Notify(token, Model.Deliver(Model.ConnectFailed(token))));
        return;
      }
      var socket := Model.Handle(nextId, token);
      nextId := nextId + 1;
      connectingSocket := Some(socket);
      connects := connects + {socket};
    }

    method ConnectCompleted(socket: Model.Handle, ok: bool)
      modifies `dispatcher, `connectingSocket, `connects
      ensures View() == Model.Apply(old(View()), Model.ConnectCompleted(old(Core()), socket, ok))
    {
      connects := connects - {socket};
      if !notificationScope.running || connectingSocket != Some(socket) {
        return;
      }
      if !ok {
        connectingSocket := None;
        Enqueue(Model.Notify(socket.token, Model.Deliver(Model.ConnectFailed(socket.token))));
        return;
      }
      Enqueue(Model.Notify(socket.token, Model.Verify(socket)));
    }

    method HandleConnectedSocket(socket: Model.Handle, verified: bool)
      modifies `dispatcher, `io, `connectingSocket, `peer, `peers, `live, `nextId
      ensures View() == Model.Apply(old(View()), Model.ConnectedSocket(old(Core()), socket, verified))
    {
      hide Model.AdoptPeer;
      if connectingSocket != Some(socket) {
        return;
      }
      connectingSocket := None;
      if !notificationScope.View().IsCurrent(socket.token) {
        return;
      }
      if !verified {
        Enqueue(Model.Notify(socket.token, Model.Deliver(Model.VerificationFailed(socket.token))));
        return;
      }
      AdoptPeer(socket.token);
    }

    method AdoptPeer(token: Scopes.Token)
      modifies `io, `peer, `peers, `live, `nextId
      ensures View() == Model.Apply(old(View()), Model.AdoptPeer(old(Core()), token))
    {
      var p := NewPeer(token);
      Post(Model.AnnouncePeer(p));
    }

    method NewPeer(token: Scopes.Token) returns (p: Model.Handle)
      modifies `peer, `peers, `live, `nextId
      ensures p == Model.Handle(old(nextId), token)
      ensures Session()
           == old(Session()).(peer := Some(p), peers := old(peers) + {p}, live := old(live) + {p},
                              nextId := old(nextId) + 1)
    {
      p := Model.Handle(nextId, token);
      nextId := nextId + 1;
      peer := Some(p);
      peers := peers + {p};
      live := live + {p};
    }

    method ClosePeer(code: ErrorCode) returns (closed: bool)
      requires requestManager.Valid()
      modifies `io, `peer, requestManager
      ensures View() == Model.Apply(old(View()), Model.ClosePeer(old(Core()), code))
      ensures closed <==> old(peer).Some?
      ensures requestManager.Valid()
    {
      hide Conserved, CompleteAll;
      if peer.Some? {
        requestManager.CompleteAll(code);
        Post(Model.ClosePeerTask(peer.value));
        peer := None;
        return true;
      }
      return false;
    }

    method CloseConnections()
      requires requestManager.Valid()
      modifies `io, `connectingSocket, `peer, requestManager
      ensures View() == Model.Apply(old(View()), Model.CloseConnections(old(Core())))
    {
      hide Conserved, CompleteAll;
      if connectingSocket.Some? {
        connectingSocket := None;
      }
      var _ := ClosePeer(OperationAborted);
    }

    /** A peer's signal arriving on the I/O side, dropped unless the peer is the current one. */
    method Forward(p: Model.Handle, signal: Model.Signal)
      requires requestManager.Valid()
      modifies `dispatcher, `peer, `ended, requestManager
      ensures View() == Model.Apply(old(View()), Model.Forward(old(Core()), p, signal))
    {
      hide Conserved, CompleteAll, Complete;
      if peer != Some(p) {
        return;
      }
      match signal {
        case Data(data) =>
          Enqueue(Model.Notify(p.token, Model.Deliver(Model.Received(p, data))));
        case Request(id, data) =>
          Enqueue(Model.Notify(p.token, Model.Deliver(Model.RequestReceived(p, id, data))));
        case Response(id, data) =>
          requestManager.Complete(id, Answered(p.id, id, data));
        case Error(code) =>
          requestManager.CompleteAll(code);
          Enqueue(Model.Notify(p.token, Model.Deliver(Model.ErrorOccurred(p, code))));
        case Closing =>
          requestManager.CompleteAll(ConnectionReset);
          peer := None;
          ended := ended + {p};
          Enqueue(Model.Notify(p.token, Model.Deliver(Model.Closed(p))));
      }
    }

    method PeerCloses(p: Model.Handle)
      modifies `dispatcher, `live, `emitted
      ensures View() == Model.Apply(old(View()), Model.PeerCloses(old(Core()), p))
    {
      if p in live {
        live := live - {p};
        PeerEmits(p, Model.Closing);
      }
    }

    method SendRequest()
      requires requestManager.Valid()
      modifies `captured, requestManager
      ensures View() == Model.Apply(old(View()), Model.SendRequest(old(Core())))
    {
      hide Conserved, Add;
      if peer.None? {
        return;
      }
      var id := requestManager.Add(Pending(None, peer.value.id));
      var token := notificationScope.Capture();
      captured := captured[id := token];
    }

    method RequestTimer(id: RequestId, expired: bool)
      requires requestManager.Valid()
      requires id in requestManager.timers && (expired || id !in requestManager.pendingRequests)
      modifies `dispatcher, `io, `peer, requestManager
      ensures View() == Model.Apply(old(View()),
                          Model.RequestTimer(old(Core()), id, expired, invalidateConnectionOnRequestError))
    {
      hide Conserved, CompleteAll, TimerRuns;
      var timedOut := requestManager.TimerHandler(id, expired);
      if timedOut && invalidateConnectionOnRequestError && id in captured {
        var p := peer;
        var closed := ClosePeer(ConnectionReset);
        if closed {
          Enqueue(Model.Notify(captured[id], Model.Deliver(Model.Closed(p.value))));
        }
      }
    }

    method RunIoTask(task: Model.IoTask, endpointOk: bool)
      requires requestManager.Valid()
      modifies this, requestManager
      ensures View() == Model.Apply(old(View()), Model.RunIoTask(old(Core()), task, endpointOk))
    {
      match task {
        case ConnectTask(token) => RunConnect(token, endpointOk);
        case HandleConnected(socket, verified) => HandleConnectedSocket(socket, verified);
        case StopTask => CloseConnections();
        case InvalidateTask(token) =>
          CloseConnections();
          Enqueue(Model.Notify(token, Model.Reschedule));
        case AnnouncePeer(p) =>
          if peer == Some(p) {
            Enqueue(Model.Notify(p.token, Model.Deliver(Model.Connected(p))));
          }
        case ForwardSignal(p, signal) => Forward(p, signal);
        case ClosePeerTask(p) => PeerCloses(p);
        case SendRequestTask => SendRequest();
      }
    }

    // ---------------------------------------------------- running the queues

    /** The dispatcher thread runs its queue's head. */
    method RunDispatcher(verified: bool)
      requires Valid() && dispatcher != []
      modifies this, notificationScope
      ensures View() == Model.Step(old(View()), Model.RunDispatcher(verified), invalidateConnectionOnRequestError)
      ensures Valid()
    {
      hide Proofs.ClientInvariant, Model.RunDispatcherTask;
      Proofs.StepKeepsClientInvariant(View(), Model.RunDispatcher(verified), invalidateConnectionOnRequestError);
      var task := dispatcher[0];
      dispatcher := dispatcher[1..];
      RunDispatcherTask(task, verified);
    }

    /** The I/O thread runs its queue's head. */
    method RunIo(endpointOk: bool)
      requires Valid() && io != []
      modifies this, requestManager
      ensures View() == Model.Step(old(View()), Model.RunIo(endpointOk), invalidateConnectionOnRequestError)
      ensures Valid()
    {
      hide Proofs.ClientInvariant, Conserved, Model.RunIoTask, Model.Happens, Model.RunDispatcherTask;
      ManagerIsValid();
      Proofs.StepKeepsClientInvariant(View(), Model.RunIo(endpointOk), invalidateConnectionOnRequestError);
      var task := io[0];
      io := io[1..];
      RunIoTask(task, endpointOk);
    }

    method ReconnectTimer()
      modifies `reconnectArmed, `io
      ensures View() == Model.Apply(old(View()),
                          Model.Happens(old(Core()), Model.ReconnectTimer, invalidateConnectionOnRequestError))
    {
      reconnectArmed := false;
      if notificationScope.running {
        Connect();
      }
    }

    method PeerEmits(p: Model.Handle, signal: Model.Signal)
      modifies `dispatcher, `emitted
      ensures View() == Model.Apply(old(View()), Model.EmitSignal(old(Core()), p, signal))
    {
      emitted := emitted + [Model.Emission(p, signal)];
      Enqueue(Model.SignalSlot(p, signal));
    }

    method RunEvent(e: Model.Event)
      requires requestManager.Valid() && Model.Enabled(View(), e) && !e.RunDispatcher? && !e.RunIo?
      modifies this, requestManager
      ensures View() == Model.Apply(old(View()), Model.Happens(old(Core()), e, invalidateConnectionOnRequestError))
    {
      hide Conserved, Model.ConnectCompleted, Model.RequestTimer, Model.PeerCloses;
      match e {
        case CallStart => Enqueue(Model.UserStart);
        case CallStop => Enqueue(Model.UserStop);
        case CallInvalidate => Enqueue(Model.UserInvalidate);
        case CallRequest => Post(Model.SendRequestTask);
        case ConnectCompletes(socket, ok) => ConnectCompleted(socket, ok);
        case ReconnectTimer => ReconnectTimer();
        case RequestTimerRuns(id, expired) => RequestTimer(id, expired);
        case PeerEmits(p, signal) => PeerEmits(p, signal);
        case PeerCloseRuns(p) => PeerCloses(p);
      }
    }

    /** A call of the user, a completion, or a timer. */
    method HandleEvent(e: Model.Event)
      requires Valid() && Model.Enabled(View(), e) && !e.RunDispatcher? && !e.RunIo?
      modifies this, requestManager
      ensures View() == Model.Step(old(View()), e, invalidateConnectionOnRequestError)
      ensures Valid()
    {
      hide Proofs.ClientInvariant, Conserved, Model.RunIoTask, Model.Happens, Model.RunDispatcherTask;
      ManagerIsValid();
      Proofs.StepKeepsClientInvariant(View(), e, invalidateConnectionOnRequestError);
      RunEvent(e);
    }

    lemma ManagerIsValid()
      requires Valid()
      ensures requestManager.Valid()
    {
    }
  }
}
