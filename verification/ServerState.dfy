/** The server object: handlers that update its fields and append to the two
    queues, each proved to have the model's effect. */
module ServerState {
  import opened Common
  import Scopes = NotificationScope
  import opened Requests
  import Manager = RequestManager
  import Model = ServerModel
  import Proofs = ServerTheorems

  class ServerState {
    const notificationScope: Scopes.NotificationScope
    const requestManager: Manager.RequestManager
    const invalidateConnectionOnRequestError: bool

    var acceptor: Option<Model.Acceptor>
    var peers: set<PeerId>
    var exposedPeerIds: set<PeerId>
    var healthCheckPeer: Option<Model.Probe>
    var healthCheckTimeout: Option<Model.Probe>
    var nextPeerId: PeerId
    var bindRetryArmed: bool
    var healthChecking: bool
    // the queues, and the operations and objects the I/O library keeps
    var dispatcher: seq<Model.DispatcherTask>
    var io: seq<Model.IoTask>
    var accepts: multiset<Model.Accept>
    var nextAcceptorId: nat
    var connects: set<Model.Probe>
    var timers: set<Model.Probe>
    var cancelled: set<Model.Probe>
    var made: set<Model.Probe>
    var open: set<Model.Probe>
    var nextProbeId: nat
    // the history of every peer, and what the signals told the user
    var known: map<PeerId, Model.PeerRecord>
    var log: seq<Model.Entry>

    ghost function Listening(): Model.Listening
      reads `acceptor, `accepts, `nextAcceptorId
    {
      Model.Listening(acceptor, accepts, nextAcceptorId)
    }

    ghost function Probing(): Model.Probing
      reads `healthCheckTimeout, `healthCheckPeer, `connects, `timers, `cancelled, `made, `open, `nextProbeId
    {
      Model.Probing(healthCheckTimeout, healthCheckPeer, connects, timers, cancelled, made, open, nextProbeId)
    }

    ghost function Members(): Model.Members
      reads `peers, `exposedPeerIds, `known, `nextPeerId
    {
      Model.Members(peers, exposedPeerIds, known, nextPeerId)
    }

    ghost function Core(): Model.Core
      reads this, notificationScope, requestManager
    {
      Model.Core(notificationScope.View(), Listening(), Probing(), Members(), bindRetryArmed, healthChecking,
                 requestManager.View(), log)
    }

    ghost function View(): Model.Server
      reads this, notificationScope, requestManager
    {
      Model.Server(Core(), dispatcher, io)
    }

    ghost predicate Valid()
      reads this, notificationScope, requestManager
    {
      Proofs.ServerInvariant(View())
    }

    constructor (invalidateConnectionOnRequestError: bool)
      ensures View() == Model.InitialServer && Valid()
      ensures fresh(notificationScope) && fresh(requestManager)
    {
      this.invalidateConnectionOnRequestError := invalidateConnectionOnRequestError;
      var scope := new Scopes.NotificationScope();
      var manager := new Manager.RequestManager();
      notificationScope, requestManager := scope, manager;
      acceptor, healthCheckPeer, healthCheckTimeout := None, None, None;
      peers, exposedPeerIds, nextPeerId := {}, {}, 0;
      bindRetryArmed, healthChecking := false, false;
      dispatcher, io := [], [];
      accepts, nextAcceptorId := multiset{}, 0;
      connects, timers, cancelled, made, open, nextProbeId := {}, {}, {}, {}, {}, 0;
      known, log := map[], [];
      new;
      Proofs.InitialServerInvariant();
    }

    method Enqueue(task: Model.DispatcherTask)
      modifies `dispatcher
      ensures dispatcher == old(dispatcher) + [task]
    {
      dispatcher := dispatcher + [task];
    }

    method Post(task: Model.IoTask)
      modifies `io
      ensures io == old(io) + [task]
    {
      io := io + [task];
    }

    method Tell(note: Model.UserNote)
      modifies `log
      ensures log == old(log) + [Model.Entry(note, notificationScope.generation)]
    {
      log := log + [Model.Entry(note, notificationScope.generation)];
    }

    // -------------------------------------------- handlers, dispatcher side

    method Bind()
      modifies `io
      ensures View() == Model.Apply(old(View()), Model.Bind(old(Core())))
    {
      var token := notificationScope.Capture();
      Post(Model.BindTask(token));
    }

    method Start()
      modifies `io, notificationScope
      ensures View() == Model.Apply(old(View()), Model.StartServer(old(Core())))
    {
      notificationScope.Start();
      Bind();
    }

    method Stop()
      modifies `dispatcher, `io, `exposedPeerIds, notificationScope
      ensures View() == Model.Apply(old(View()), Model.StopServer(old(Core())))
    {
      hide Listening, Probing;
      notificationScope.Stop();
      Enqueue(Model.CancelRetry);
      Enqueue(Model.StopChecks);
      exposedPeerIds := {};
      Post(Model.StopTask);
    }

    method ScheduleBindRetry()
      modifies `dispatcher
      ensures View() == Model.Apply(old(View()), Model.ScheduleRetry(old(Core())))
    {
      Enqueue(Model.StopChecks);
      if !notificationScope.running {
        return;
      }
      Enqueue(Model.DebounceRetry);
    }

    method StartHealthCheckTimer()
      modifies `dispatcher
      ensures View() == Model.Apply(old(View()), Model.StartChecking(old(Core())))
    {
      if !notificationScope.running {
        return;
      }
      Enqueue(Model.StartChecks);
    }

    method RecordVerdict(p: PeerId, verified: bool)
      requires p in known
      modifies `exposedPeerIds, `known
      ensures Members() == Model.Judge(old(Members()), p, verified)
    {
      known := known[p := known[p].(handled := known[p].handled + [Model.Ready])];
      known := known[p := known[p].(verdict := Some(verified))];
      if verified {
        exposedPeerIds := exposedPeerIds + {p};
      }
    }

    method VerifyPeer(p: PeerId, verified: bool)
      requires p in known
      modifies `io, `log, `exposedPeerIds, `known
      ensures View() == Model.Apply(old(View()), Model.VerifyPeer(old(Core()), p, verified))
    {
      hide Model.Judge, Listening, Probing, Members;
      RecordVerdict(p, verified);
      if verified {
        Tell(Model.PeerConnected(p));
      } else {
        Post(Model.ClosePeerRequest(p));
      }
    }

    /** A session notification, delivered only while its token is current. */
    method RunNotification(token: Scopes.Token, notification: Model.Notification, verified: bool)
      requires notification.Verify? ==> notification.peer in known
      modifies `dispatcher, `io, `log, `exposedPeerIds, `known
      ensures View() == Model.Apply(old(View()), Model.RunNotification(old(Core()), token, notification, verified))
    {
      hide Model.VerifyPeer, Listening, Probing, Members;
      if !notificationScope.View().IsCurrent(token) {
        return;
      }
      match notification {
        case Deliver(note) =>
          Tell(Model.OfSession(note));
          if note.Bound? {
            StartHealthCheckTimer();
          } else {
            ScheduleBindRetry();
          }
        case Verify(p) =>
          VerifyPeer(p, verified);
      }
    }

    /** The slot a peer's signal is connected to. */
    method RunPeerSlot(p: PeerId, signal: Model.Signal)
      modifies `dispatcher, `io
      ensures View() == Model.Apply(old(View()), Model.RunPeerSlot(old(Core()), p, signal))
    {
      hide Listening, Probing;
      if p !in known || known[p].released {
        return;
      }
      match signal {
        case Ready => Enqueue(Model.Notify(known[p].token, Model.Verify(p)));
        case Data(_) => Enqueue(Model.DeliverSignal(p, signal));
        case Request(_, _) => Enqueue(Model.DeliverSignal(p, signal));
        case Response(id, data) => Post(Model.ForwardResponse(p, id, data));
        case Error(code) =>
          Post(Model.FailRequests(p, code));
          Enqueue(Model.DeliverSignal(p, signal));
        case Closing =>
          Post(Model.ForgetPeer(p));
          Enqueue(Model.DeliverSignal(p, Model.Closing));
      }
    }

    method SettleSignal(p: PeerId, signal: Model.Signal) returns (exposed: bool)
      modifies `exposedPeerIds, `known
      ensures Members() == Model.Settle(old(Members()), p, signal)
      ensures exposed <==> p in old(exposedPeerIds)
    {
      if p in known {
        known := known[p := known[p].(handled := known[p].handled + [signal])];
      }
      exposed := p in exposedPeerIds;
      if signal.Closing? {
        exposedPeerIds := exposedPeerIds - {p};
      }
    }

    /** The server's own task for a signal: the user hears of exposed peers only. */
    method RunDelivery(p: PeerId, signal: Model.Signal)
      modifies `log, `exposedPeerIds, `known
      ensures View() == Model.Apply(old(View()), Model.RunDelivery(old(Core()), p, signal))
    {
      hide Model.Settle, Listening, Probing;
      var exposed := SettleSignal(p, signal);
      if exposed {
        Tell(if signal.Closing? then Model.PeerClosed(p) else Model.PeerSignalled(p, signal));
      }
    }

    method SetBindRetry(armed: bool)
      modifies `bindRetryArmed
      ensures Core() == old(Core()).(retryArmed := armed)
    {
      bindRetryArmed := armed;
    }

    method SetHealthCheckTimer(running: bool)
      modifies `healthChecking
      ensures Core() == old(Core()).(checking := running)
    {
      healthChecking := running;
    }

    method RunDispatcherTask(task: Model.DispatcherTask, verified: bool)
      requires task.Notify? && task.notification.Verify? ==> task.notification.peer in known
      modifies `dispatcher, `io, `log, `exposedPeerIds, `known, `bindRetryArmed, `healthChecking,
               notificationScope
      ensures View() == Model.Apply(old(View()), Model.RunDispatcherTask(old(Core()), task, verified))
    {
      hide Model.RunNotification, Model.RunPeerSlot, Model.RunDelivery, Model.StartServer, Model.StopServer, Listening,
           Probing, Members;
      match task {
        case UserStart => Start();
        case UserStop => Stop();
        case Notify(token, notification) => RunNotification(token, notification, verified);
        case PeerSlot(p, signal) => RunPeerSlot(p, signal);
        case DeliverSignal(p, signal) => RunDelivery(p, signal);
        case ProbeSlot(probe, answered) =>
          if notificationScope.View().IsCurrent(probe.token) {
            Post(Model.ProbeResult(probe, answered));
          }
        case CancelRetry => SetBindRetry(false);
        case DebounceRetry => SetBindRetry(true);
        case StartChecks =>
          SetHealthCheckTimer(true);
          Enqueue(Model.RunCheck);
        case StopChecks => SetHealthCheckTimer(false);
        case RunCheck =>
          var token := notificationScope.Capture();
          Post(Model.HealthCheckTask(token));
      }
    }

    // --------------------------------------------------- handlers, I/O side

    method RunBind(token: Scopes.Token, listens: bool)
      modifies `dispatcher, `acceptor, `accepts, `nextAcceptorId
      ensures View() == Model.Apply(old(View()), Model.RunBind(old(Core()), token, listens))
    {
      hide Probing, Members;
      if !notificationScope.View().IsCurrent(token) || acceptor.Some? {
        return;
      }
      if !listens {
        Enqueue(Model.Notify(token, Model.Deliver(Model.BindFailed)));
        return;
      }
      hide Model.Listen;
      Listen(token);
      Enqueue(Model.Notify(token, Model.Deliver(Model.Bound)));
    }

    method Listen(token: Scopes.Token)
      requires acceptor.None?
      modifies `acceptor, `accepts, `nextAcceptorId
      ensures Listening() == Model.Listen(old(Listening()), token)
    {
      acceptor := Some(Model.Acceptor(nextAcceptorId, token));
      nextAcceptorId := nextAcceptorId + 1;
      Accept(token);
    }

    /** The next async_accept, if there is an acceptor. */
    method Accept(token: Scopes.Token)
      modifies `accepts
      ensures Listening() == Model.AcceptNext(old(Listening()), token)
    {
      if acceptor.Some? {
        accepts := accepts + multiset{Model.Accept(acceptor.value, token)};
      }
    }

    method AcceptCompleted(op: Model.Accept, result: Model.AcceptResult)
      modifies `dispatcher, `acceptor, `accepts, `peers, `known, `nextPeerId
      ensures View() == Model.Apply(old(View()), Model.AcceptCompleted(old(Core()), op, result))
    {
      hide Model.RunAccept;
      accepts := accepts - multiset{op};
      if !notificationScope.View().IsCurrent(op.token) {
        return;
      }
      RunAccept(op.token, result);
    }

    method RunAccept(token: Scopes.Token, result: Model.AcceptResult)
      modifies `dispatcher, `acceptor, `accepts, `peers, `known, `nextPeerId
      ensures View() == Model.Apply(old(View()), Model.RunAccept(old(Core()), token, result))
    {
      hide Model.AdoptSocket;
      match result {
        case Accepted => HandleAcceptedSocket(token);
        case AcceptFails =>
          acceptor := None;
          Enqueue(Model.Notify(token, Model.Deliver(Model.ListenerClosed)));
        case AcceptAborted =>
      }
    }

    method HandleAcceptedSocket(token: Scopes.Token)
      modifies `accepts, `peers, `known, `nextPeerId
      ensures Core() == Model.AdoptSocket(old(Core()), token)
    {
      hide Model.Adopt, Model.AcceptNext;
      AdoptPeer(token);
      Accept(token);
    }

    method AdoptPeer(token: Scopes.Token)
      modifies `peers, `known, `nextPeerId
      ensures Members() == Model.Adopt(old(Members()), token)
    {
      nextPeerId := nextPeerId + 1;
      peers := peers + {nextPeerId};
      known := known[nextPeerId := Model.PeerRecord(token, [], {}, [], None, false, false)];
    }

    method ClosePeer(p: PeerId)
      requires requestManager.Valid()
      requires p in peers ==> p in known
      modifies `io, `peers, `known, requestManager
      ensures View() == Model.Apply(old(View()), Model.ClosePeer(old(Core()), p))
      ensures requestManager.Valid()
    {
      hide Conserved, CompletePeer, Model.Expel, Listening, Probing;
      if p in peers {
        requestManager.CompletePeer(p, OperationAborted);
        Post(Model.PeerCloseTask(p, true));
        Expel(p);
      }
    }

    method Expel(p: PeerId)
      requires p in known
      modifies `peers, `known
      ensures Members() == Model.Expel(old(Members()), p)
    {
      known := known[p := known[p].(removed := true)];
      peers := peers - {p};
    }

    /** The close of a peer, with the completion that a local close asks for. */
    method PeerCloses(p: PeerId, notify: bool)
      modifies `dispatcher, `known
      ensures View() == Model.Apply(old(View()), Model.PeerCloses(old(Core()), p, notify))
    {
      ghost var queued := dispatcher;
      if p in known && known[p].Open() {
        known := known[p := known[p].(emitted := known[p].emitted + [Model.Closing])];
        Enqueue(Model.PeerSlot(p, Model.Closing));
      }
      if notify {
        Enqueue(Model.DeliverSignal(p, Model.Closing));
      }
      assert dispatcher == queued + Model.PeerCloses(old(Core()), p, notify).enqueued;
    }

    method CloseAcceptor()
      modifies `acceptor
      ensures Listening() == old(Listening()).(acceptor := None)
    {
      acceptor := None;
    }

    /** Closes every peer, in the order the map happens to be iterated in. */
    method CloseAllPeers(order: seq<PeerId>)
      requires requestManager.Valid() && Model.Enumerates(order, peers)
      modifies `io, `peers, requestManager
      ensures Members() == old(Members()).(peers := {}) && io == old(io) + Model.PeerCloseTasks(order)
      ensures requestManager.View() == CompleteAll(old(requestManager.View()), OperationAborted)
    {
      hide Conserved, CompleteAll;
      requestManager.CompleteAll(OperationAborted);
      for i := 0 to |order|
        invariant io == old(io) + Model.PeerCloseTasks(order[..i])
        invariant requestManager.View() == CompleteAll(old(requestManager.View()), OperationAborted)
      {
        Post(Model.PeerCloseTask(order[i], false));
        assert Model.PeerCloseTasks(order[..i + 1])
            == Model.PeerCloseTasks(order[..i]) + [Model.PeerCloseTask(order[i], false)];
      }
      assert order[..|order|] == order;
      peers := {};
    }

    method CloseHealthCheckPeer()
      modifies `io, `healthCheckTimeout, `healthCheckPeer, `cancelled
      ensures Probing() == Model.DropProbe(old(Probing())) && io == old(io) + Model.DropTasks(old(Probing()))
    {
      if healthCheckTimeout.Some? {
        cancelled := cancelled + {healthCheckTimeout.value};
        healthCheckTimeout := None;
      }
      if healthCheckPeer.Some? {
        Post(Model.ProbeCloseTask(healthCheckPeer.value));
        healthCheckPeer := None;
      }
    }

    method RunStopTask(order: seq<PeerId>)
      requires requestManager.Valid() && Model.Enumerates(order, peers)
      modifies `io, `acceptor, `peers, `healthCheckTimeout, `healthCheckPeer, `cancelled, requestManager
      ensures View() == Model.Apply(old(View()), Model.StopTaskRuns(old(Core()), order))
    {
      hide Conserved, CompleteAll, Model.PeerCloseTasks, Model.DropProbe, Model.DropTasks, Model.Enumerates, Probing,
           Listening, Members;
      CloseAcceptor();
      CloseAllPeers(order);
      CloseHealthCheckPeer();
    }

    method IsCurrentHealthCheck(probe: Model.Probe) returns (current: bool)
      ensures current <==> Model.IsCurrentProbe(Core(), probe)
    {
      current := notificationScope.View().IsCurrent(probe.token) && healthCheckTimeout == Some(probe);
    }

    method HealthCheckFailed(probe: Model.Probe)
      modifies `dispatcher, `io, `acceptor, `healthCheckTimeout, `healthCheckPeer, `cancelled
      ensures View() == Model.Apply(old(View()), Model.ProbeFailed(old(Core()), probe))
    {
      hide Model.DropProbe, Model.DropTasks, Model.IsCurrentProbe, Probing, Members, Listening;
      var current := IsCurrentHealthCheck(probe);
      if !current {
        return;
      }
      CloseHealthCheckPeer();
      CloseAcceptor();
      Enqueue(Model.Notify(probe.token, Model.Deliver(Model.ListenerClosed)));
    }

    method RunHealthCheck(token: Scopes.Token, endpointOk: bool)
      modifies `dispatcher, `io, `acceptor, `healthCheckTimeout, `healthCheckPeer, `cancelled, `connects, `timers,
               `nextProbeId
      ensures View() == Model.Apply(old(View()), Model.RunHealthCheck(old(Core()), token, endpointOk))
    {
      hide Model.ProbeFailed, Model.AwaitProbe, Members;
      if !notificationScope.View().IsCurrent(token) || acceptor.None? || healthCheckTimeout.Some? {
        return;
      }
      var probe := NewProbe(token);
      if !endpointOk {
        HealthCheckFailed(probe);
        return;
      }
      StartProbe(probe);
    }

    method NewProbe(token: Scopes.Token) returns (probe: Model.Probe)
      modifies `healthCheckTimeout, `nextProbeId
      ensures probe == Model.Probe(old(nextProbeId), token)
      ensures Probing() == old(Probing()).(timeout := Some(probe), nextId := probe.id + 1)
    {
      probe := Model.Probe(nextProbeId, token);
      nextProbeId := nextProbeId + 1;
      healthCheckTimeout := Some(probe);
    }

    method StartProbe(probe: Model.Probe)
      modifies `connects, `timers
      ensures Probing() == Model.AwaitProbe(old(Probing()), probe)
    {
      timers := timers + {probe};
      connects := connects + {probe};
    }

    method HealthCheckConnected(probe: Model.Probe, ok: bool)
      modifies `dispatcher, `io, `acceptor, `healthCheckTimeout, `healthCheckPeer, `cancelled, `connects, `made, `open
      ensures View() == Model.Apply(old(View()), Model.ProbeConnected(old(Core()), probe, ok))
    {
      hide Model.ProbeFailed, Model.ConnectFailed, Model.AdoptProbe, Model.IsCurrentProbe, Probing, Listening, Members;
      var current := IsCurrentHealthCheck(probe);
      if !current {
        CancelProbe(probe);
        return;
      }
      if !ok {
        CancelProbe(probe);
        HealthCheckFailed(probe);
        return;
      }
      StartProbePeer(probe);
    }

    method CancelProbe(probe: Model.Probe)
      modifies `connects, `cancelled
      ensures Probing() == Model.ConnectFailed(old(Probing()), probe)
    {
      connects := connects - {probe};
      cancelled := cancelled + {probe};
    }

    method StartProbePeer(probe: Model.Probe)
      modifies `healthCheckPeer, `connects, `made, `open
      ensures Probing() == Model.AdoptProbe(old(Probing()), probe)
    {
      connects := connects - {probe};
      healthCheckPeer := Some(probe);
      made := made + {probe};
      open := open + {probe};
    }

    method HealthCheckTimedOut(probe: Model.Probe, expired: bool)
      modifies `dispatcher, `io, `acceptor, `healthCheckTimeout, `healthCheckPeer, `cancelled, `timers
      ensures View() == Model.Apply(old(View()), Model.ProbeTimer(old(Core()), probe, expired))
    {
      hide Model.ProbeFailed, Listening, Members;
      timers := timers - {probe};
      if expired {
        HealthCheckFailed(probe);
      }
    }

    method HealthCheckAnswered(probe: Model.Probe, answered: bool)
      modifies `dispatcher, `io, `acceptor, `healthCheckTimeout, `healthCheckPeer, `cancelled
      ensures View() == Model.Apply(old(View()), Model.ProbeAnswered(old(Core()), probe, answered))
    {
      hide Model.ProbeFailed, Model.DropProbe, Model.DropTasks, Listening, Members;
      if !answered {
        HealthCheckFailed(probe);
      } else {
        var current := IsCurrentHealthCheck(probe);
        if current {
          CloseHealthCheckPeer();
        }
      }
    }

    method ProbeCloses(probe: Model.Probe)
      modifies `dispatcher, `open
      ensures View() == Model.Apply(old(View()), Model.ProbeCloses(old(Core()), probe))
    {
      hide Listening, Members;
      if probe in open {
        open := open - {probe};
        Enqueue(Model.ProbeSlot(probe, false));
      }
    }

    method SendRequest(p: PeerId)
      requires requestManager.Valid()
      modifies requestManager
      ensures View() == Model.Apply(old(View()), Model.SendRequest(old(Core()), p))
    {
      hide Conserved, Add;
      if p in peers {
        var _ := requestManager.Add(Pending(Some(p), p));
      }
    }

    method RequestTimer(id: RequestId, expired: bool)
      requires requestManager.Valid() && (forall p :: p in peers ==> p in known)
      requires id in requestManager.timers && (expired || id !in requestManager.pendingRequests)
      modifies `io, `peers, `known, requestManager
      ensures View() == Model.Apply(old(View()),
                          Model.RequestTimer(old(Core()), id, expired, invalidateConnectionOnRequestError))
    {
      hide Conserved, CompletePeer, TimerRuns, Model.ClosePeer;
      var registered := if id in requestManager.pendingRequests then requestManager.pendingRequests[id].peer else None;
      var timedOut := requestManager.TimerHandler(id, expired);
      if timedOut && invalidateConnectionOnRequestError && registered.Some? {
        ClosePeer(registered.value);
      }
    }

    method ForwardResponse(p: PeerId, id: RequestId, data: Bytes)
      requires requestManager.Valid()
      modifies requestManager
      ensures View() == Model.Apply(old(View()),
                          Model.RunIoTask(old(Core()), Model.ForwardResponse(p, id, data), true, []))
    {
      hide Conserved, CompleteOfPeer, Listening, Probing;
      if p in peers {
        requestManager.CompleteFromPeer(p, id, Answered(p, id, data));
      }
    }

    method FailRequests(p: PeerId, code: ErrorCode)
      requires requestManager.Valid()
      modifies requestManager
      ensures View() == Model.Apply(old(View()), Model.RunIoTask(old(Core()), Model.FailRequests(p, code), true, []))
    {
      hide Conserved, CompletePeer, Listening, Probing, Members;
      requestManager.CompletePeer(p, code);
    }

    method ForgetPeer(p: PeerId)
      requires requestManager.Valid()
      modifies `peers, requestManager
      ensures View() == Model.Apply(old(View()), Model.RunIoTask(old(Core()), Model.ForgetPeer(p), true, []))
    {
      hide Conserved, CompletePeer, Listening, Probing;
      requestManager.CompletePeer(p, ConnectionReset);
      peers := peers - {p};
    }

    method RunIoTask(task: Model.IoTask, ok: bool, order: seq<PeerId>)
      requires requestManager.Valid() && (forall p :: p in peers ==> p in known)
      requires task.StopTask? ==> Model.Enumerates(order, peers)
      modifies this, requestManager
      ensures View() == Model.Apply(old(View()), Model.RunIoTask(old(Core()), task, ok, order))
    {
      hide Conserved, Model.Enumerates, Model.RunBind, Model.StopTaskRuns, Model.RunHealthCheck, Model.ClosePeer,
           Model.PeerCloses, Model.ProbeAnswered, Model.SendRequest, Model.ProbeCloses, Listening, Probing, Members;
      match task {
        case BindTask(token) => RunBind(token, ok);
        case StopTask => RunStopTask(order);
        case HealthCheckTask(token) => RunHealthCheck(token, ok);
        case ClosePeerRequest(p) => ClosePeer(p);
        case PeerCloseTask(p, notify) => PeerCloses(p, notify);
        case ProbeResult(probe, answered) => HealthCheckAnswered(probe, answered);
        case ProbeCloseTask(probe) => ProbeCloses(probe);
        case ForwardResponse(p, id, data) => ForwardResponse(p, id, data);
        case FailRequests(p, code) => FailRequests(p, code);
        case ForgetPeer(p) => ForgetPeer(p);
        case SendRequestTask(p) => SendRequest(p);
      }
    }

    // ---------------------------------------------------- running the queues

    lemma Facts()
      requires Valid()
      ensures requestManager.Valid() && forall p :: p in peers ==> p in known
    {
      hide Proofs.SessionInvariant;
    }

    method RetryTimer()
      modifies `bindRetryArmed, `io
      ensures View() == Model.Apply(old(View()),
                          Model.Happens(old(Core()), Model.RetryTimer, invalidateConnectionOnRequestError))
    {
      hide Listening, Probing, Members;
      bindRetryArmed := false;
      if notificationScope.running {
        Bind();
      }
    }

    method RecordEmitted(p: PeerId, signal: Model.Signal)
      requires p in known
      modifies `known
      ensures Members() == Model.Emit(old(Members()), p, signal)
    {
      if signal.Response? {
        known := known[p := known[p].(responses := known[p].responses + {signal})];
      } else {
        known := known[p := known[p].(emitted := known[p].emitted + [signal])];
      }
    }

    method PeerEmits(p: PeerId, signal: Model.Signal)
      requires p in known
      modifies `dispatcher, `known
      ensures View() == Model.Apply(old(View()), Model.EmitSignal(old(Core()), p, signal))
    {
      hide Model.Emit, Listening, Probing;
      RecordEmitted(p, signal);
      Enqueue(Model.PeerSlot(p, signal));
    }

    method PeerDestroyed(p: PeerId)
      requires p in known
      modifies `known
      ensures View() == Model.Apply(old(View()),
                          Model.Happens(old(Core()), Model.PeerDestroyed(p), invalidateConnectionOnRequestError))
    {
      known := known[p := known[p].(released := true)];
    }

    method RunEvent(e: Model.Event)
      requires requestManager.Valid() && (forall p :: p in peers ==> p in known)
      requires Model.Enabled(View(), e) && !e.RunDispatcher? && !e.RunIo?
      modifies this, requestManager
      ensures View() == Model.Apply(old(View()), Model.Happens(old(Core()), e, invalidateConnectionOnRequestError))
    {
      hide Conserved, Model.AcceptCompleted, Model.RequestTimer, Model.PeerCloses, Model.EmitSignal,
           Model.ProbeConnected, Model.ProbeTimer, Model.ProbeCloses, Model.MayEmit, Listening, Probing;
      match e {
        case CallStart => Enqueue(Model.UserStart);
        case CallStop => Enqueue(Model.UserStop);
        case CallRequest(p) => Post(Model.SendRequestTask(p));
        case CallClosePeer(p) => Post(Model.ClosePeerRequest(p));
        case AcceptCompletes(op, result) => AcceptCompleted(op, result);
        case RetryTimer => RetryTimer();
        case HealthCheckTimer => Enqueue(Model.RunCheck);
        case RequestTimerRuns(id, expired) => RequestTimer(id, expired);
        case PeerEmits(p, signal) => PeerEmits(p, signal);
        case PeerCloseRuns(p) => PeerCloses(p, false);
        case PeerDestroyed(p) => PeerDestroyed(p);
        case ProbeConnectCompletes(probe, ok) => HealthCheckConnected(probe, ok);
        case ProbeTimerRuns(probe, expired) => HealthCheckTimedOut(probe, expired);
        case ProbeEmits(probe, answered) => Enqueue(Model.ProbeSlot(probe, answered));
        case ProbeCloseRuns(probe) => ProbeCloses(probe);
      }
    }

    /** A call of the user, a completion, or a timer. */
    method HandleEvent(e: Model.Event)
      requires Valid() && Model.Enabled(View(), e) && !e.RunDispatcher? && !e.RunIo?
      modifies this, requestManager
      ensures View() == Model.Step(old(View()), e, invalidateConnectionOnRequestError)
      ensures Valid()
    {
      hide Proofs.ServerInvariant, Conserved, Model.RunIoTask, Model.Happens, Model.RunDispatcherTask, Model.MayEmit,
           Listening, Probing;
      Proofs.StepKeepsServerInvariant(View(), e, invalidateConnectionOnRequestError);
      Facts();
      RunEvent(e);
    }

    lemma VerifiedPeerKnown()
      requires Valid() && dispatcher != []
      ensures dispatcher[0].Notify? && dispatcher[0].notification.Verify? ==> dispatcher[0].notification.peer in known
    {
      hide Proofs.SessionInvariant, Proofs.PeersInvariant;
      assert dispatcher[0] in View().dispatcher;
    }

    /** The dispatcher thread runs its queue's head. */
    method RunDispatcher(verified: bool)
      requires Valid() && dispatcher != []
      modifies this, notificationScope
      ensures View() == Model.Step(old(View()), Model.RunDispatcher(verified), invalidateConnectionOnRequestError)
      ensures Valid()
    {
      hide Proofs.ServerInvariant, Model.RunDispatcherTask, Model.Happens, Model.RunIoTask, Listening, Probing, Members;
      Proofs.StepKeepsServerInvariant(View(), Model.RunDispatcher(verified), invalidateConnectionOnRequestError);
      VerifiedPeerKnown();
      var task := dispatcher[0];
      dispatcher := dispatcher[1..];
      RunDispatcherTask(task, verified);
    }

    /** The I/O thread runs its queue's head. */
    method RunIo(ok: bool, order: seq<PeerId>)
      requires Valid() && io != [] && (io[0].StopTask? ==> Model.Enumerates(order, peers))
      modifies this, requestManager
      ensures View() == Model.Step(old(View()), Model.RunIo(ok, order), invalidateConnectionOnRequestError)
      ensures Valid()
    {
      hide Proofs.ServerInvariant, Conserved, Model.RunIoTask, Model.Enumerates, Model.Happens, Model.RunDispatcherTask,
           Listening, Probing;
      Proofs.StepKeepsServerInvariant(View(), Model.RunIo(ok, order), invalidateConnectionOnRequestError);
      Facts();
      var task := io[0];
      io := io[1..];
      RunIoTask(task, ok, order);
    }
  }
}
