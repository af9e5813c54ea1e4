/** The server's peers and their requests: no peer is released unclosed, and
    requests stay with the peer they were sent on. */
module ServerPeers {
  import opened Common
  import opened Queues
  import opened NotificationScope
  import opened Requests
  import opened ServerModel
  import opened ServerProofs

  // --------------------------------------------------------- released closed

  predicate ClosePosted(io: seq<IoTask>, p: PeerId) {
    PeerCloseTask(p, true) in io || PeerCloseTask(p, false) in io
  }

  /** A peer whose close has not run is in the map or has its close posted; only a
      closed one signals `closed`, and only a closed one is ever destroyed. */
  ghost predicate NoPeerUnclosed(s: Server) {
    && (forall p :: IsOpen(s.core.members, p) ==> p in s.core.members.peers || ClosePosted(s.io, p))
    && (forall task :: task in s.dispatcher && task.PeerSlot? && task.signal.Closing? ==>
          IsClosed(s.core.members, task.peer))
    && (forall task :: task in s.io && task.ForgetPeer? ==> IsClosed(s.core.members, task.peer))
    && ReleasedClosed(s.core.members)
  }

  predicate IsClosed(m: Members, p: PeerId) {
    p in m.known && !m.known[p].Open()
  }

  ghost predicate ReleasedClosed(m: Members) {
    forall p :: p in m.known && m.known[p].released ==> IsClosed(m, p) && p !in m.peers
  }

  /** Only an accepted peer becomes open, and only a closed one released. */
  ghost predicate StaysClosed(m: Members, n: Members) {
    && (forall p :: IsOpen(n, p) ==> IsOpen(m, p) || (p in n.peers && p !in m.known))
    && (forall p :: IsClosed(m, p) ==> IsClosed(n, p))
    && (ReleasedClosed(m) ==> ReleasedClosed(n))
  }

  lemma DispatcherStaysClosed(c: Core, task: DispatcherTask, verified: bool)
    ensures var n := MembersAfterDispatcher(c, task, verified); StaysClosed(c.members, n) && n.peers == c.members.peers
  {
  }

  lemma IoStaysClosed(m: Members, task: IoTask)
    ensures StaysClosed(m, MembersAfterIo(m, task))
    ensures task.PeerCloseTask? ==> !IsOpen(MembersAfterIo(m, task), task.peer)
  {
  }

  lemma EventStaysClosed(c: Core, e: Event, n: Members)
    requires e.PeerEmits? || e.PeerDestroyed? ==> e.peer in c.members.known
    requires e.PeerDestroyed? ==> IsClosed(c.members, e.peer) && e.peer !in c.members.peers
    requires e.PeerEmits? ==> !e.signal.Closing?
    requires MembersSound(c.members) && MembersAfterEvent(c, e, n)
    ensures StaysClosed(c.members, n)
  {
  }

  lemma DispatcherEffectCloses(c: Core, task: DispatcherTask, verified: bool)
    ensures var f := RunDispatcherTask(c, task, verified);
            && (forall t :: t in f.enqueued ==> !t.PeerSlot?)
            && (forall t :: t in f.posted && t.ForgetPeer? ==> task == PeerSlot(t.peer, Closing))
  {
    hide Judge, Settle;
  }

  lemma CloseTasksCover(order: seq<PeerId>, p: PeerId)
    requires p in order
    ensures PeerCloseTask(p, false) in PeerCloseTasks(order)
  {
    var i :| 0 <= i < |order| && order[i] == p;
    assert PeerCloseTasks(order)[i] == PeerCloseTask(p, false);
  }

  /** Whoever leaves the map without being forgotten has its close posted. */
  lemma IoEffectCloses(c: Core, task: IoTask, ok: bool, order: seq<PeerId>, p: PeerId)
    requires task.StopTask? ==> Enumerates(order, c.members.peers)
    requires MembersSound(c.members)
    ensures var f := RunIoTask(c, task, ok, order);
            && (p in c.members.peers && p !in MembersAfterIo(c.members, task).peers && task != ForgetPeer(p) ==>
                  ClosePosted(f.posted, p))
  {
    hide CompleteAll, CompletePeer, CompleteOfPeer, Add, PeerCloseTasks;
    if task.StopTask? && p in c.members.peers {
      CloseTasksCover(order, p);
    }
  }

  lemma IoEffectSlots(c: Core, task: IoTask, ok: bool, order: seq<PeerId>)
    ensures var f := RunIoTask(c, task, ok, order);
            && (forall t :: t in f.enqueued && t.PeerSlot? ==>
                  t == PeerSlot(t.peer, Closing) && IsClosed(MembersAfterIo(c.members, task), t.peer))
            && (forall t :: t in f.posted ==> !t.ForgetPeer?)
  {
    hide CompleteAll, CompletePeer, CompleteOfPeer, Add, Expel, Enumerates;
  }

  lemma EventEffectCloses(c: Core, e: Event, invalidate: bool)
    requires e.PeerEmits? || e.PeerDestroyed? ==> e.peer in c.members.known
    requires e.PeerEmits? ==> !e.signal.Closing?
    ensures var f := Happens(c, e, invalidate);
            && (forall t :: t in f.enqueued && t.PeerSlot? && t.signal.Closing? ==> IsClosed(f.core.members, t.peer))
            && (forall t :: t in f.posted ==> !t.ForgetPeer?)
            && (forall p :: p in c.members.peers && p !in f.core.members.peers ==> ClosePosted(f.posted, p))
  {
    hide CompletePeer, TimerRuns, TimesOut, AcceptNext;
  }

  lemma DispatcherKeepsClosed(s: Server, verified: bool, invalidate: bool)
    requires NoPeerUnclosed(s) && s.dispatcher != []
    ensures NoPeerUnclosed(Step(s, RunDispatcher(verified), invalidate))
  {
    hide RunDispatcherTask, MembersAfterDispatcher, IsOpen, IsClosed, ReleasedClosed;
    StepQueues(s, RunDispatcher(verified), invalidate);
    DispatcherFrame(s.core, s.dispatcher[0], verified);
    DispatcherStaysClosed(s.core, s.dispatcher[0], verified);
    DispatcherEffectCloses(s.core, s.dispatcher[0], verified);
  }

  lemma IoKeepsClosed(s: Server, ok: bool, order: seq<PeerId>, invalidate: bool)
    requires NoPeerUnclosed(s) && MembersSound(s.core.members) && Enabled(s, RunIo(ok, order))
    ensures NoPeerUnclosed(Step(s, RunIo(ok, order), invalidate))
  {
    hide RunIoTask, MembersAfterIo, MembersSound, ReleasedClosed, Enumerates;
    var t := Step(s, RunIo(ok, order), invalidate);
    StepQueues(s, RunIo(ok, order), invalidate);
    IoFrame(s.core, s.io[0], ok, order);
    IoStaysClosed(s.core.members, s.io[0]);
    IoEffectSlots(s.core, s.io[0], ok, order);
    assert s.io[0] in s.io;
    forall p | IsOpen(t.core.members, p)
      ensures p in t.core.members.peers || ClosePosted(t.io, p)
    {
      IoEffectCloses(s.core, s.io[0], ok, order, p);
    }
  }

  lemma EventKeepsClosed(s: Server, e: Event, invalidate: bool)
    requires NoPeerUnclosed(s) && MembersSound(s.core.members)
    requires Enabled(s, e) && !e.RunDispatcher? && !e.RunIo?
    ensures NoPeerUnclosed(Step(s, e, invalidate))
  {
    hide Happens, MembersAfterEvent, ListeningAfterEvent, MembersSound, ReleasedClosed;
    StepQueues(s, e, invalidate);
    EventFrame(s.core, e, invalidate);
    EventStaysClosed(s.core, e, Happens(s.core, e, invalidate).core.members);
    EventEffectCloses(s.core, e, invalidate);
  }

  // ---------------------------------------------------------------- requests

  predicate OwnAnswer(b: Callback) {
    b.outcome.Answered? ==> b.outcome.from == b.connection && b.outcome.responseId == b.id
  }

  /** Every pending request names the peer in the map it was sent on, and only its
      answers were read from it. */
  ghost predicate RequestsOnPeers(r: RequestTable, peers: set<PeerId>) {
    && Conserved(r)
    && (forall id :: id in r.pending ==>
          && r.pending[id] == Pending(Some(r.pending[id].connection), r.pending[id].connection)
          && r.pending[id].connection in peers)
    && (forall b :: b in r.callbacks ==> OwnAnswer(b))
  }

  lemma CompletePeerKeepsRequests(r: RequestTable, peers: set<PeerId>, p: PeerId, code: ErrorCode)
    requires RequestsOnPeers(r, peers)
    ensures RequestsOnPeers(CompletePeer(r, p, code), peers - {p})
    ensures RequestsOnPeers(CompletePeer(r, p, code), peers)
  {
    FailAllConserves(r, OfPeer(r, p), code);
  }

  lemma CompleteAllKeepsRequests(r: RequestTable, peers: set<PeerId>, code: ErrorCode)
    requires RequestsOnPeers(r, peers)
    ensures RequestsOnPeers(CompleteAll(r, code), {})
  {
    FailAllConserves(r, r.pending.Keys, code);
  }

  lemma ResponseKeepsRequests(r: RequestTable, peers: set<PeerId>, p: PeerId, id: RequestId, data: Bytes)
    requires RequestsOnPeers(r, peers)
    ensures RequestsOnPeers(CompleteOfPeer(r, p, id, Answered(p, id, data)), peers)
  {
    CompleteConserves(r, id, Answered(p, id, data));
  }

  lemma SendKeepsRequests(r: RequestTable, peers: set<PeerId>, p: PeerId)
    requires RequestsOnPeers(r, peers) && p in peers
    ensures RequestsOnPeers(Add(r, Pending(Some(p), p)), peers)
  {
    AddConserves(r, Pending(Some(p), p));
  }

  lemma TimerKeepsRequests(r: RequestTable, peers: set<PeerId>, id: RequestId, expired: bool)
    requires RequestsOnPeers(r, peers) && (expired || id !in r.pending)
    ensures RequestsOnPeers(TimerRuns(r, id, expired), peers)
  {
    TimerConserves(r, id, expired);
  }

  lemma MorePeersKeepRequests(r: RequestTable, peers: set<PeerId>, more: set<PeerId>)
    requires RequestsOnPeers(r, peers) && peers <= more
    ensures RequestsOnPeers(r, more)
  {
    hide Conserved;
  }

  lemma IoKeepsRequests(c: Core, task: IoTask, ok: bool, order: seq<PeerId>)
    requires RequestsOnPeers(c.requests, c.members.peers)
    ensures var d := RunIoTask(c, task, ok, order).core; RequestsOnPeers(d.requests, d.members.peers)
  {
    hide RequestsOnPeers, CompleteAll, CompletePeer, CompleteOfPeer, Add;
    var r, peers := c.requests, c.members.peers;
    match task
    case StopTask => CompleteAllKeepsRequests(r, peers, OperationAborted);
    case ClosePeerRequest(p) => CompletePeerKeepsRequests(r, peers, p, OperationAborted);
    case ForgetPeer(p) => CompletePeerKeepsRequests(r, peers, p, ConnectionReset);
    case FailRequests(p, code) => CompletePeerKeepsRequests(r, peers, p, code);
    case ForwardResponse(p, id, data) => ResponseKeepsRequests(r, peers, p, id, data);
    case SendRequestTask(p) =>
      if p in peers {
        SendKeepsRequests(r, peers, p);
      }
    case _ =>
  }

  lemma EventKeepsRequests(c: Core, e: Event, invalidate: bool)
    requires e.PeerEmits? || e.PeerDestroyed? ==> e.peer in c.members.known
    requires e.RequestTimerRuns? ==> e.expired || e.id !in c.requests.pending
    requires RequestsOnPeers(c.requests, c.members.peers)
    ensures var d := Happens(c, e, invalidate).core; RequestsOnPeers(d.requests, d.members.peers)
  {
    hide RequestsOnPeers, CompletePeer, TimerRuns, TimesOut;
    var r, peers := c.requests, c.members.peers;
    match e
    case RequestTimerRuns(id, expired) =>
      TimerKeepsRequests(r, peers, id, expired);
      TimeoutKeepsRequests(c, id, expired, invalidate);
    case AcceptCompletes(op, result) => MorePeersKeepRequests(r, peers, peers + {c.members.nextPeerId + 1});
    case _ =>
  }

  lemma TimeoutKeepsRequests(c: Core, id: RequestId, expired: bool, invalidate: bool)
    requires RequestsOnPeers(TimerRuns(c.requests, id, expired), c.members.peers)
    ensures var d := RequestTimer(c, id, expired, invalidate).core; RequestsOnPeers(d.requests, d.members.peers)
  {
    hide RequestsOnPeers, CompletePeer, TimerRuns;
    if TimesOut(c.requests, id, expired) && c.requests.pending[id].peer.Some? {
      CompletePeerKeepsRequests(TimerRuns(c.requests, id, expired), c.members.peers, c.requests.pending[id].peer.value,
                                OperationAborted);
    }
  }

  lemma StepKeepsRequests(s: Server, e: Event, invalidate: bool)
    requires RequestsOnPeers(s.core.requests, s.core.members.peers) && MembersSound(s.core.members) && Enabled(s, e)
    ensures var d := Step(s, e, invalidate).core; RequestsOnPeers(d.requests, d.members.peers)
  {
    hide RequestsOnPeers, MembersSound, RunDispatcherTask, RunIoTask, Happens, MayEmit, Enumerates,
         MembersAfterDispatcher;
    match e
    case RunDispatcher(verified) =>
      DispatcherFrame(s.core, s.dispatcher[0], verified);
      DispatcherStaysClosed(s.core, s.dispatcher[0], verified);
    case RunIo(ok, order) => IoKeepsRequests(s.core, s.io[0], ok, order);
    case _ => EventKeepsRequests(s.core, e, invalidate);
  }
}
