/** How the server's requests end: one is pending from when it is sent to a peer in the map;
    whatever ends it, once on its way, has ended it when the queues are empty; and none is
    left waiting on a closed peer. */
module ServerEndings {
  import opened Common
  import opened Queues
  import opened NotificationScope
  import opened Requests
  import opened ServerModel
  import opened ServerProofs
  import opened ServerProgress
  import opened ServerPeers
  import opened ServerLifecycle
  import opened ServerDelivery
  import opened ServerTheorems

  // ------------------------------------------------------------------ sending

  /** A request sent to a peer in the map is pending on it under a fresh id, its timer
      started; one sent to any other peer changes nothing. */
  lemma SentRequestIsPending(events: seq<Event>, invalidate: bool, ok: bool, order: seq<PeerId>)
    requires var s := Run(InitialServer, events, invalidate); s.io != [] && s.io[0].SendRequestTask?
    ensures var s := Run(InitialServer, events, invalidate);
            var t, p, r := Step(s, RunIo(ok, order), invalidate), s.io[0].peer, s.core.requests;
            var id := r.nextId + 1;
            && t.dispatcher == s.dispatcher && t.io == s.io[1..] && t.core == s.core.(requests := t.core.requests)
            && id !in r.pending && !CalledBack(r, id)
            && (if p in s.core.members.peers then
                  && t.core.requests.pending == r.pending[id := Pending(Some(p), p)] && t.core.requests.nextId == id
                  && t.core.requests.timers == r.timers + {id} && t.core.requests.callbacks == r.callbacks
                else t.core == s.core)
  {
    hide Run, ServerInvariant;
    var s := Run(InitialServer, events, invalidate);
    ReachableServerInvariant(events, invalidate);
    NextIdIsFresh(s);
  }

  lemma NextIdIsFresh(s: Server)
    requires ServerInvariant(s)
    ensures var r, id := s.core.requests, s.core.requests.nextId + 1; id !in r.pending && !CalledBack(r, id)
  {
    hide BaseInvariant, SessionInvariant, NoPeerUnclosed, LifecycleInvariant, AllNarrated, AllPeersEnd, AllAccounted;
  }

  // ------------------------------------------------------------- being ended

  predicate Concludes(signal: Signal, id: RequestId) {
    signal.Error? || signal.Closing? || (signal.Response? && signal.id == id)
  }

  predicate TaskConcludes(task: IoTask, p: PeerId, id: RequestId) {
    EndingCode(task, p).Some? || (task.ForwardResponse? && task.peer == p && task.id == id)
  }

  /** What ends request `id` of peer `p` is on its way. */
  ghost predicate EndQueued(s: Server, p: PeerId, id: RequestId) {
    || (exists signal :: Concludes(signal, id) && PeerSlot(p, signal) in s.dispatcher)
    || (exists task :: TaskConcludes(task, p, id) && task in s.io)
  }

  /** The request is complete, or what ends it is on its way. */
  ghost predicate EndComing(s: Server, p: PeerId, id: RequestId) {
    || id !in s.core.requests.pending
    || (s.core.requests.pending[id].connection == p && EndQueued(s, p, id))
  }

  /** A live peer's slot posts what ends the requests its signal concludes. */
  lemma DispatcherForwards(c: Core, task: DispatcherTask, verified: bool, id: RequestId)
    ensures var f := RunDispatcherTask(c, task, verified);
            && (task.PeerSlot? && Concludes(task.signal, id) && !Released(c.members, task.peer) ==>
                  |f.posted| == 1 && TaskConcludes(f.posted[0], task.peer, id))
            && f.core.requests == c.requests
  {
    hide Judge, Settle;
  }

  lemma DispatcherKeepsComing(s: Server, verified: bool, invalidate: bool, p: PeerId, id: RequestId)
    requires s.dispatcher != [] && EndComing(s, p, id)
    requires id in s.core.requests.pending ==> !Released(s.core.members, p)
    ensures EndComing(Step(s, RunDispatcher(verified), invalidate), p, id)
  {
    hide RunDispatcherTask, EndingCode;
    var t, f := Step(s, RunDispatcher(verified), invalidate), RunDispatcherTask(s.core, s.dispatcher[0], verified);
    StepQueues(s, RunDispatcher(verified), invalidate);
    DispatcherForwards(s.core, s.dispatcher[0], verified, id);
    if id in s.core.requests.pending {
      if signal :| Concludes(signal, id) && PeerSlot(p, signal) in s.dispatcher {
        if s.dispatcher[0] == PeerSlot(p, signal) {
          assert f.posted[0] in t.io;
        } else {
          assert PeerSlot(p, signal) in t.dispatcher;
        }
      } else {
        var task :| TaskConcludes(task, p, id) && task in s.io;
        assert task in t.io;
      }
    }
  }

  /** A pending request stays as it is until it is completed, and ids are not used again. */
  lemma IoKeepsPending(c: Core, task: IoTask, ok: bool, order: seq<PeerId>, id: RequestId)
    requires id <= c.requests.nextId
    ensures var r, t := c.requests, RunIoTask(c, task, ok, order).core.requests;
            && (id in t.pending ==> id in r.pending && t.pending[id] == r.pending[id])
            && id <= t.nextId
  {
    hide Expel, Emit, Enumerates, Failures;
  }

  lemma EventKeepsPending(c: Core, e: Event, invalidate: bool, id: RequestId)
    requires e.PeerEmits? || e.PeerDestroyed? ==> e.peer in c.members.known
    requires id <= c.requests.nextId
    ensures var r, t := c.requests, Happens(c, e, invalidate).core.requests;
            && (id in t.pending ==> id in r.pending && t.pending[id] == r.pending[id])
            && id <= t.nextId
  {
    hide Expel, Emit, Adopt, AcceptNext, DropProbe, ConnectFailed, AdoptProbe, Failures;
  }

  lemma StepKeepsComing(s: Server, e: Event, invalidate: bool, p: PeerId, id: RequestId)
    requires ServerInvariant(s) && EndComing(s, p, id) && id <= s.core.requests.nextId && Enabled(s, e)
    ensures EndComing(Step(s, e, invalidate), p, id)
    ensures id <= Step(s, e, invalidate).core.requests.nextId
  {
    hide ServerInvariant, RunDispatcherTask, RunIoTask, Happens, MayEmit, Enumerates, EndingCode;
    if id in s.core.requests.pending {
      PendingPeerLives(s, id);
    }
    match e {
      case RunDispatcher(verified) =>
        DispatcherFrame(s.core, s.dispatcher[0], verified);
        DispatcherKeepsComing(s, verified, invalidate, p, id);
      case RunIo(ok, order) =>
        IoKeepsPending(s.core, s.io[0], ok, order, id);
        if id in s.core.requests.pending {
          TaskEndsRequests(s.core, s.io[0], ok, order, id);
          if !TaskConcludes(s.io[0], p, id) {
            QueuedEndStays(s, e, invalidate, p, id);
          }
        }
      case _ =>
        EventKeepsPending(s.core, e, invalidate, id);
        QueuedEndStays(s, e, invalidate, p, id);
    }
  }

  /** What ends a request stays queued until it runs. */
  lemma QueuedEndStays(s: Server, e: Event, invalidate: bool, p: PeerId, id: RequestId)
    requires Enabled(s, e) && !e.RunDispatcher? && (e.RunIo? ==> !TaskConcludes(s.io[0], p, id))
    ensures EndQueued(s, p, id) ==> EndQueued(Step(s, e, invalidate), p, id)
  {
    hide RunDispatcherTask, RunIoTask, Happens, MayEmit, MayBeDestroyed, Enumerates, EndingCode;
    var t := Step(s, e, invalidate);
    StepQueues(s, e, invalidate);
    if signal :| Concludes(signal, id) && PeerSlot(p, signal) in s.dispatcher {
      assert PeerSlot(p, signal) in t.dispatcher;
    }
    if task :| TaskConcludes(task, p, id) && task in s.io {
      assert task in t.io;
    }
  }

  lemma PendingPeerLives(s: Server, id: RequestId)
    requires ServerInvariant(s) && id in s.core.requests.pending
    ensures var p := s.core.requests.pending[id].connection;
            && s.core.requests.pending[id] == Pending(Some(p), p)
            && p in s.core.members.peers && !Released(s.core.members, p)
  {
    hide SessionInvariant, LifecycleInvariant, AllNarrated, AllPeersEnd, AllAccounted, Conserved;
  }

  lemma {:induction false} RunKeepsComing(s: Server, more: seq<Event>, invalidate: bool, p: PeerId, id: RequestId)
    requires ServerInvariant(s) && EndComing(s, p, id) && id <= s.core.requests.nextId
    ensures EndComing(Run(s, more, invalidate), p, id) && ServerInvariant(Run(s, more, invalidate))
    ensures id <= Run(s, more, invalidate).core.requests.nextId
    decreases |more|
  {
    hide ServerInvariant, EndComing, Step, Enabled;
    if more != [] {
      if Enabled(s, more[0]) {
        StepKeepsComing(s, more[0], invalidate, p, id);
      } else {
        DisabledStutters(s, more[0], invalidate);
      }
      StepKeepsServerInvariant(s, more[0], invalidate);
      RunKeepsComing(Step(s, more[0], invalidate), more[1..], invalidate, p, id);
    }
  }

  /** Nothing that ends a request is lost: once its response, an error or the close of its
      peer, a local close, or a stop is queued, the request has been called back, and is
      pending no more, when both queues are empty. */
  lemma QueuedEndCallsBack(events: seq<Event>, more: seq<Event>, invalidate: bool, p: PeerId, id: RequestId)
    requires var s := Run(InitialServer, events, invalidate);
             id in s.core.requests.pending && s.core.requests.pending[id].connection == p && EndQueued(s, p, id)
    ensures var t := Run(Run(InitialServer, events, invalidate), more, invalidate);
            t.dispatcher == [] && t.io == [] ==> CalledBack(t.core.requests, id) && id !in t.core.requests.pending
  {
    hide Run, ServerInvariant, TaskConcludes;
    var s := Run(InitialServer, events, invalidate);
    var t := Run(s, more, invalidate);
    ReachableServerInvariant(events, invalidate);
    IssuedId(s, id);
    RunKeepsComing(s, more, invalidate, p, id);
    if t.dispatcher == [] && t.io == [] {
      CalledBackOnceDone(t, id);
    }
  }

  lemma IssuedId(s: Server, id: RequestId)
    requires ServerInvariant(s) && id in s.core.requests.pending
    ensures 1 <= id <= s.core.requests.nextId
  {
    hide BaseInvariant, SessionInvariant, NoPeerUnclosed, LifecycleInvariant, AllNarrated, AllPeersEnd, AllAccounted;
  }

  lemma CalledBackOnceDone(s: Server, id: RequestId)
    requires ServerInvariant(s) && 1 <= id <= s.core.requests.nextId && id !in s.core.requests.pending
    ensures CalledBack(s.core.requests, id)
  {
    hide BaseInvariant, SessionInvariant, NoPeerUnclosed, LifecycleInvariant, AllNarrated, AllPeersEnd, AllAccounted,
         CalledBack;
  }

  // ----------------------------------------------------- closed peers leave

  /** A closed peer still in the map is about to leave it. */
  ghost predicate ClosedLeave(s: Server) {
    forall p :: p in s.core.members.peers && !IsOpen(s.core.members, p) ==>
      PeerSlot(p, Closing) in s.dispatcher || ForgetPeer(p) in s.io
  }

  lemma SlotForgets(c: Core, p: PeerId, verified: bool)
    requires !Released(c.members, p)
    ensures RunDispatcherTask(c, PeerSlot(p, Closing), verified).posted == [ForgetPeer(p)]
  {
  }

  lemma DispatcherKeepsOpen(c: Core, task: DispatcherTask, verified: bool, p: PeerId)
    ensures var n := MembersAfterDispatcher(c, task, verified);
            n.peers == c.members.peers && (IsOpen(n, p) <==> IsOpen(c.members, p))
  {
  }

  lemma IoClosesWithSlot(c: Core, task: IoTask, ok: bool, order: seq<PeerId>, p: PeerId)
    ensures var f := RunIoTask(c, task, ok, order);
            && (p in MembersAfterIo(c.members, task).peers ==> p in c.members.peers && task != ForgetPeer(p))
            && (IsOpen(c.members, p) && !IsOpen(MembersAfterIo(c.members, task), p) ==>
                  PeerSlot(p, Closing) in f.enqueued)
  {
    hide CompleteAll, CompletePeer, CompleteOfPeer, Add, Enumerates;
  }

  lemma EventClosesWithSlot(c: Core, e: Event, invalidate: bool, p: PeerId)
    requires e.PeerEmits? || e.PeerDestroyed? ==> e.peer in c.members.known
    requires e.PeerEmits? ==> !e.signal.Closing?
    ensures var f := Happens(c, e, invalidate);
            && (p in f.core.members.peers ==> p in c.members.peers || IsOpen(f.core.members, p))
            && (IsOpen(c.members, p) && !IsOpen(f.core.members, p) ==> PeerSlot(p, Closing) in f.enqueued)
  {
    hide CompletePeer, TimerRuns, TimesOut, AcceptNext;
  }

  lemma StepKeepsClosedLeave(s: Server, e: Event, invalidate: bool)
    requires ClosedLeave(s) && ReleasedClosed(s.core.members) && MembersSound(s.core.members) && Enabled(s, e)
    ensures ClosedLeave(Step(s, e, invalidate))
  {
    hide RunDispatcherTask, RunIoTask, Happens, Enumerates, IsOpen, MembersAfterDispatcher, MembersAfterIo,
         MembersAfterEvent, ListeningAfterIo, ListeningAfterEvent;
    var t := Step(s, e, invalidate);
    StepQueues(s, e, invalidate);
    forall p | p in t.core.members.peers && !IsOpen(t.core.members, p)
      ensures PeerSlot(p, Closing) in t.dispatcher || ForgetPeer(p) in t.io
    {
      match e
      case RunDispatcher(verified) =>
        DispatcherFrame(s.core, s.dispatcher[0], verified);
        DispatcherKeepsOpen(s.core, s.dispatcher[0], verified, p);
        SlotForgets(s.core, p, verified);
      case RunIo(ok, order) =>
        IoFrame(s.core, s.io[0], ok, order);
        IoClosesWithSlot(s.core, s.io[0], ok, order, p);
      case _ => EventClosesWithSlot(s.core, e, invalidate, p);
    }
  }

  lemma ServerReleased(s: Server)
    requires ServerInvariant(s)
    ensures ReleasedClosed(s.core.members) && MembersSound(s.core.members)
  {
    hide SessionInvariant, LifecycleInvariant, AllNarrated, AllPeersEnd, AllAccounted, MembersSound, ReleasedClosed;
  }

  lemma {:induction false} EveryRunKeepsClosedLeave(s: Server, events: seq<Event>, invalidate: bool)
    requires ServerInvariant(s) && ClosedLeave(s)
    ensures ClosedLeave(Run(s, events, invalidate))
    decreases |events|
  {
    hide ServerInvariant, ClosedLeave, Step, Enabled;
    if events != [] {
      if Enabled(s, events[0]) {
        ServerReleased(s);
        StepKeepsClosedLeave(s, events[0], invalidate);
      } else {
        DisabledStutters(s, events[0], invalidate);
      }
      StepKeepsServerInvariant(s, events[0], invalidate);
      EveryRunKeepsClosedLeave(Step(s, events[0], invalidate), events[1..], invalidate);
    }
  }

  /** With both queues empty the map holds open peers only, so that whatever request is
      still pending can still be answered. */
  lemma IdleMapHoldsOpenPeers(events: seq<Event>, invalidate: bool, p: PeerId, id: RequestId)
    ensures var s := Run(InitialServer, events, invalidate);
            s.dispatcher == [] && s.io == [] ==>
              && (p in s.core.members.peers ==> IsOpen(s.core.members, p))
              && (id in s.core.requests.pending ==>
                    var q := s.core.requests.pending[id].connection;
                    q in s.core.members.peers && IsOpen(s.core.members, q))
  {
    hide Run, ServerInvariant, IsOpen;
    var s := Run(InitialServer, events, invalidate);
    InitialServerInvariant();
    EveryRunKeepsClosedLeave(InitialServer, events, invalidate);
    ReachableServerInvariant(events, invalidate);
    if id in s.core.requests.pending {
      PendingPeerLives(s, id);
    }
  }

  // ----------------------------------------------------------- with what outcome

  /** How a signal of its peer ends a request. */
  function OutcomeOf(p: PeerId, signal: Signal): Outcome
    requires signal.Response? || signal.Error? || signal.Closing?
  {
    match signal
    case Response(id, data) => Answered(p, id, data)
    case Error(code) => Failed(code)
    case Closing => Failed(ConnectionReset)
  }

  /** How a peer comes to signal it. */
  function Signalling(p: PeerId, signal: Signal): Event {
    if signal.Closing? then PeerCloseRuns(p) else PeerEmits(p, signal)
  }

  /** The requests a signal ends. */
  function Concluded(r: RequestTable, p: PeerId, signal: Signal): set<RequestId> {
    set id | id in r.pending && r.pending[id].connection == p && Concludes(signal, id)
  }

  /** A request is ended as its peer's own signal says: with both queues empty before, the
      slot of a response hands exactly its data, that of an error its code and that of a close
      a reset to every request it is about, and no other request is touched. */
  lemma SignalEndsRequests(
    events: seq<Event>, invalidate: bool, p: PeerId, id: RequestId, signal: Signal, verified: bool, ok: bool,
    order: seq<PeerId>
  )
    requires var s := Run(InitialServer, events, invalidate);
             && s.dispatcher == [] && s.io == [] && Enabled(s, Signalling(p, signal)) && Concludes(signal, id)
             && id in s.core.requests.pending && s.core.requests.pending[id].connection == p
    ensures var s := Run(InitialServer, events, invalidate);
            var t := Run(s, [Signalling(p, signal), RunDispatcher(verified), RunIo(ok, order)], invalidate);
            && Callback(id, p, OutcomeOf(p, signal)) in t.core.requests.callbacks
            && t.core.requests.pending == s.core.requests.pending - Concluded(s.core.requests, p, signal)
            && t.dispatcher == (if signal.Response? then [] else [DeliverSignal(p, signal)])
            && t.io == [] && t.core.log == s.core.log
  {
    hide Run, Step, Enabled, ServerInvariant;
    var s := Run(InitialServer, events, invalidate);
    ReachableServerInvariant(events, invalidate);
    PendingPeerLives(s, id);
    PendingNamesItsPeer(s);
    IdleMapHoldsOpenPeers(events, invalidate, p, id);
    var signalled := Step(s, Signalling(p, signal), invalidate);
    var passed := Step(signalled, RunDispatcher(verified), invalidate);
    SignalEmitted(s, invalidate, p, signal);
    SignalPassed(signalled, invalidate, p, signal, verified);
    SignalArrives(passed, invalidate, p, id, signal, ok, order);
    RunThree(s, Signalling(p, signal), RunDispatcher(verified), RunIo(ok, order), invalidate);
  }

  lemma PendingNamesItsPeer(s: Server)
    requires ServerInvariant(s)
    ensures forall id :: id in s.core.requests.pending ==>
              s.core.requests.pending[id].peer == Some(s.core.requests.pending[id].connection)
  {
    hide BaseInvariant, SessionInvariant, NoPeerUnclosed, LifecycleInvariant, AllNarrated, AllPeersEnd, AllAccounted,
         Conserved;
  }

  lemma SignalEmitted(s: Server, invalidate: bool, p: PeerId, signal: Signal)
    requires s.dispatcher == [] && Enabled(s, Signalling(p, signal)) && IsOpen(s.core.members, p)
    requires !Released(s.core.members, p) && (signal.Response? || signal.Error? || signal.Closing?)
    ensures var t := Step(s, Signalling(p, signal), invalidate);
            && t.dispatcher == [PeerSlot(p, signal)] && t.io == s.io && t.core.log == s.core.log
            && t.core.requests == s.core.requests && t.core.members.peers == s.core.members.peers
            && !Released(t.core.members, p)
  {
    hide MayEmit;
  }

  /** What a slot posts for the requests. */
  function ConcludingTask(p: PeerId, signal: Signal): IoTask
    requires signal.Response? || signal.Error? || signal.Closing?
  {
    match signal
    case Response(id, data) => ForwardResponse(p, id, data)
    case Error(code) => FailRequests(p, code)
    case Closing => ForgetPeer(p)
  }

  lemma SignalPassed(s: Server, invalidate: bool, p: PeerId, signal: Signal, verified: bool)
    requires s.dispatcher == [PeerSlot(p, signal)] && s.io == [] && !Released(s.core.members, p)
    requires signal.Response? || signal.Error? || signal.Closing?
    ensures var t := Step(s, RunDispatcher(verified), invalidate);
            && t.dispatcher == (if signal.Response? then [] else [DeliverSignal(p, signal)])
            && t.io == [ConcludingTask(p, signal)] && t.core == s.core
  {
  }

  lemma SignalArrives(
    s: Server, invalidate: bool, p: PeerId, id: RequestId, signal: Signal, ok: bool, order: seq<PeerId>
  )
    requires Concludes(signal, id) && s.io == [ConcludingTask(p, signal)] && p in s.core.members.peers
    requires id in s.core.requests.pending && s.core.requests.pending[id].connection == p
    requires forall other :: other in s.core.requests.pending ==>
               s.core.requests.pending[other].peer == Some(s.core.requests.pending[other].connection)
    ensures var t := Step(s, RunIo(ok, order), invalidate);
            && Callback(id, p, OutcomeOf(p, signal)) in t.core.requests.callbacks
            && t.core.requests.pending == s.core.requests.pending - Concluded(s.core.requests, p, signal)
            && t.dispatcher == s.dispatcher && t.io == [] && t.core.log == s.core.log
  {
    hide FailAll;
    var r := s.core.requests;
    if signal.Response? {
      assert Concluded(r, p, signal) == {id};
    } else {
      var code := OutcomeOf(p, signal).code;
      assert Concluded(r, p, signal) == OfPeer(r, p);
      FailAllEffect(r, OfPeer(r, p), code, id);
      assert CompletePeer(r, p, code).pending == r.pending - OfPeer(r, p) by {
        PendingAfterFailure(r, p, code);
      }
    }
  }

  lemma PendingAfterFailure(r: RequestTable, p: PeerId, code: ErrorCode)
    ensures CompletePeer(r, p, code).pending == r.pending - OfPeer(r, p)
  {
  }
}
