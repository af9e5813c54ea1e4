/** The server's properties over whole runs. */
module ServerTheorems {
  import opened Common
  import opened Queues
  import opened NotificationScope
  import opened Requests
  import opened ServerModel
  import opened ServerProofs
  import opened ServerProgress
  import opened ServerChecks
  import opened ServerProbes
  import opened ServerPeers
  import opened ServerLifecycle
  import opened ServerNarrative
  import opened ServerDelivery

  // --------------------------------------------------------------- discipline

  ghost predicate EmissionsDisciplined(m: Members) {
    forall p :: p in m.known ==> Disciplined(m.known[p].emitted)
  }

  lemma ClosingKeepsDiscipline(signals: seq<Signal>, closing: seq<Signal>)
    requires Disciplined(signals) && (closing == [] || (closing == [Closing] && Closing !in signals))
    ensures Disciplined(signals + closing)
  {
    if closing == [] {
      assert signals + closing == signals;
    } else {
      DisciplinedAppend(signals, Closing);
    }
  }

  lemma EventKeepsDiscipline(s: Server, e: Event, n: Members, p: PeerId)
    requires Enabled(s, e) && !e.RunDispatcher? && !e.RunIo? && MembersSound(s.core.members)
    requires MembersAfterEvent(s.core, e, n) && EmissionsDisciplined(s.core.members) && p in n.known
    ensures Disciplined(n.known[p].emitted)
  {
    hide MembersAfterEvent, MembersSound, Disciplined, EmissionsDisciplined;
    if p in s.core.members.known {
      EventRecord(s.core, e, n, p);
      DisciplineOf(s.core.members, p);
      var signals := s.core.members.known[p].emitted;
      if e.PeerEmits? && e.peer == p && !e.signal.Response? {
        DisciplinedAppend(signals, e.signal);
      } else {
        ClosingKeepsDiscipline(signals, EventSignal(s.core.members, e, p));
      }
    } else {
      AdoptedRecord(s.core, e, n, p);
      NothingDisciplined();
    }
  }

  lemma NothingDisciplined()
    ensures Disciplined([])
  {
  }

  lemma DisciplineOf(m: Members, p: PeerId)
    requires EmissionsDisciplined(m) && p in m.known
    ensures Disciplined(m.known[p].emitted)
  {
  }

  lemma StepKeepsDiscipline(s: Server, e: Event, invalidate: bool)
    requires EmissionsDisciplined(s.core.members) && MembersSound(s.core.members) && Enabled(s, e)
    ensures EmissionsDisciplined(Step(s, e, invalidate).core.members)
  {
    hide RunDispatcherTask, RunIoTask, Happens, MayEmit, MembersSound, Disciplined, Enumerates, MembersAfterDispatcher,
         MembersAfterIo, MembersAfterEvent, ListeningAfterIo, ListeningAfterEvent;
    var t := Step(s, e, invalidate);
    forall p | p in t.core.members.known
      ensures Disciplined(t.core.members.known[p].emitted)
    {
      match e
      case RunDispatcher(verified) =>
        DispatcherFrame(s.core, s.dispatcher[0], verified);
        DispatcherMembersPeers(s.core, s.dispatcher[0], verified);
        DispatcherRecord(s.core, s.dispatcher[0], verified, p);
      case RunIo(ok, order) =>
        IoFrame(s.core, s.io[0], ok, order);
        IoMembersPeers(s.core.members, s.io[0]);
        IoRecord(s.core.members, s.io[0], p);
        var emitted := s.core.members.known[p].emitted;
        ClosingKeepsDiscipline(emitted, if Closing in emitted then [] else [Closing]);
        ClosingKeepsDiscipline(emitted, []);
      case _ =>
        EventFrame(s.core, e, invalidate);
        EventKeepsDiscipline(s, e, t.core.members, p);
    }
  }

  // ---------------------------------------------------------------- invariant

  ghost predicate BaseInvariant(s: Server) {
    MembersSound(s.core.members) && TokensSound(s) && EmissionsDisciplined(s.core.members) && TasksKnown(s)
  }

  ghost predicate SessionInvariant(s: Server) {
    && CleanupsInOrder(s)
    && AcceptorAlive(s.core)
    && NeverStalled(s)
    && BoundAnnounced(s)
    && ChecksSound(s)
    && ProbingSound(s.core)
    && NoProbeUnclosed(s)
  }

  ghost predicate PeersInvariant(s: Server) {
    && NoPeerUnclosed(s)
    && RequestsOnPeers(s.core.requests, s.core.members.peers)
    && LifecycleInvariant(s)
    && AllAccounted(s)
    && AllNarrated(s.core)
    && AllPeersEnd(s)
  }

  ghost predicate ServerInvariant(s: Server) {
    BaseInvariant(s) && SessionInvariant(s) && PeersInvariant(s)
  }

  lemma InitialServerInvariant()
    ensures ServerInvariant(InitialServer)
  {
  }

  lemma StepKeepsBase(s: Server, e: Event, invalidate: bool)
    requires BaseInvariant(s) && Enabled(s, e)
    ensures BaseInvariant(Step(s, e, invalidate))
  {
    hide MembersSound, TokensSound, EmissionsDisciplined, TasksKnown, Step, Enabled;
    StepKeepsMembersSound(s, e, invalidate);
    StepKeepsTokensSound(s, e, invalidate);
    StepKeepsDiscipline(s, e, invalidate);
    StepKeepsTasksKnown(s, e, invalidate);
  }

  lemma StepKeepsCleanups(s: Server, e: Event, invalidate: bool)
    requires CleanupsInOrder(s) && NeverStalled(s) && TokensSound(s) && MembersSound(s.core.members) && Enabled(s, e)
    ensures CleanupsInOrder(Step(s, e, invalidate)) && NeverStalled(Step(s, e, invalidate))
  {
    hide CleanupsInOrder, NeverStalled, TokensSound, MembersSound, Step, Enumerates, MayEmit, MayBeDestroyed;
    match e
    case RunDispatcher(verified) =>
      DispatcherKeepsCleanups(s, verified, invalidate);
      DispatcherNeverStalls(s, verified, invalidate);
    case RunIo(ok, order) =>
      IoKeepsCleanups(s, ok, order, invalidate);
      IoNeverStalls(s, ok, order, invalidate);
    case _ =>
      EventKeepsCleanups(s, e, invalidate);
      EventNeverStalls(s, e, invalidate);
  }

  lemma StepKeepsSession(s: Server, e: Event, invalidate: bool)
    requires BaseInvariant(s) && SessionInvariant(s) && Enabled(s, e)
    ensures SessionInvariant(Step(s, e, invalidate))
  {
    hide MembersSound, CoreTokens, EmissionsDisciplined, TasksKnown, CleanupsInOrder, AcceptorAlive, BoundAnnounced,
         ChecksSound, NeverStalled, ProbingSound, NoProbeUnclosed, Step, Enabled;
    StepKeepsCleanups(s, e, invalidate);
    StepKeepsAcceptorAlive(s, e, invalidate);
    StepKeepsBoundAnnounced(s, e, invalidate);
    StepKeepsChecks(s, e, invalidate);
    StepKeepsProbing(s, e, invalidate);
    StepKeepsProbesClosed(s, e, invalidate);
  }

  lemma StepKeepsPeersClosed(s: Server, e: Event, invalidate: bool)
    requires NoPeerUnclosed(s) && MembersSound(s.core.members) && Enabled(s, e)
    ensures NoPeerUnclosed(Step(s, e, invalidate))
  {
    hide NoPeerUnclosed, MembersSound, Step, Enumerates, MayEmit, MayBeDestroyed;
    match e
    case RunDispatcher(verified) => DispatcherKeepsClosed(s, verified, invalidate);
    case RunIo(ok, order) => IoKeepsClosed(s, ok, order, invalidate);
    case _ => EventKeepsClosed(s, e, invalidate);
  }

  lemma StepKeepsPeers(s: Server, e: Event, invalidate: bool)
    requires BaseInvariant(s) && CleanupsInOrder(s) && PeersInvariant(s) && Enabled(s, e)
    ensures PeersInvariant(Step(s, e, invalidate))
  {
    hide MembersSound, CoreTokens, EmissionsDisciplined, TasksKnown, CleanupsInOrder, NoPeerUnclosed, RequestsOnPeers,
         LifecycleInvariant, AllAccounted, AllNarrated, AllPeersEnd, Step, Enabled;
    StepKeepsPeersClosed(s, e, invalidate);
    StepKeepsRequests(s, e, invalidate);
    StepKeepsLifecycle(s, e, invalidate);
    StepKeepsAccounted(s, e, invalidate);
    StepKeepsNarrated(s, e, invalidate);
    StepKeepsEnds(s, e, invalidate);
  }

  lemma StepKeepsServerInvariant(s: Server, e: Event, invalidate: bool)
    requires ServerInvariant(s)
    ensures ServerInvariant(Step(s, e, invalidate))
  {
    hide BaseInvariant, PeersInvariant, Step, Enabled, CleanupsInOrder, AcceptorAlive, BoundAnnounced, ChecksSound,
         NeverStalled, ProbingSound, NoProbeUnclosed;
    if Enabled(s, e) {
      StepKeepsBase(s, e, invalidate);
      StepKeepsSession(s, e, invalidate);
      StepKeepsPeers(s, e, invalidate);
    } else {
      DisabledStutters(s, e, invalidate);
    }
  }

  lemma DisabledStutters(s: Server, e: Event, invalidate: bool)
    requires !Enabled(s, e)
    ensures Step(s, e, invalidate) == s
  {
  }

  lemma {:induction false} EveryRunKeepsServerInvariant(s: Server, events: seq<Event>, invalidate: bool)
    requires ServerInvariant(s)
    ensures ServerInvariant(Run(s, events, invalidate))
    decreases |events|
  {
    hide ServerInvariant, Step;
    if events != [] {
      StepKeepsServerInvariant(s, events[0], invalidate);
      EveryRunKeepsServerInvariant(Step(s, events[0], invalidate), events[1..], invalidate);
    }
  }

  lemma ReachableServerInvariant(events: seq<Event>, invalidate: bool)
    ensures ServerInvariant(Run(InitialServer, events, invalidate))
  {
    InitialServerInvariant();
    EveryRunKeepsServerInvariant(InitialServer, events, invalidate);
  }

  lemma {:induction false} RunSplit(s: Server, first: seq<Event>, second: seq<Event>, invalidate: bool)
    ensures Run(s, first + second, invalidate) == Run(Run(s, first, invalidate), second, invalidate)
    decreases |first|
  {
    hide Step;
    if first == [] {
      assert first + second == second;
    } else {
      assert (first + second)[1..] == first[1..] + second;
      RunSplit(Step(s, first[0], invalidate), first[1..], second, invalidate);
    }
  }

  lemma RunOne(s: Server, a: Event, invalidate: bool)
    ensures Run(s, [a], invalidate) == Step(s, a, invalidate)
  {
    hide Step;
    assert [a][1..] == [];
  }

  lemma RunTwo(s: Server, a: Event, b: Event, invalidate: bool)
    ensures Run(s, [a, b], invalidate) == Step(Step(s, a, invalidate), b, invalidate)
  {
    hide Step;
    assert [a, b][1..] == [b];
    RunOne(Step(s, a, invalidate), b, invalidate);
  }

  lemma RunThree(s: Server, a: Event, b: Event, c: Event, invalidate: bool)
    ensures Run(s, [a, b, c], invalidate) == Step(Step(Step(s, a, invalidate), b, invalidate), c, invalidate)
  {
    hide Step;
    assert [a, b, c][1..] == [b, c];
    RunTwo(Step(s, a, invalidate), b, c, invalidate);
  }

  // -------------------------------------------------------------- main results

  /** Whatever the interleaving, a running server accepts, or has something queued or
      armed that leads to another bind; and with nothing queued it waits for an
      async_accept on its acceptor, or for the timer. */
  lemma ServerNeverStalls(events: seq<Event>, invalidate: bool)
    ensures var s := Run(InitialServer, events, invalidate);
            s.core.scope.running ==>
              && LeadsOn(s)
              && (CurrentAcceptor(s.core) && s.dispatcher == [] ==>
                    Entry(OfSession(Bound), s.core.scope.generation) in s.core.log)
              && (s.dispatcher == [] && s.io == [] ==>
                    || s.core.retryArmed
                    || (s.core.listening.acceptor.Some?
                        && Accept(s.core.listening.acceptor.value, s.core.scope.generation)
                           in s.core.listening.accepts))
  {
    hide Run, BaseInvariant, PeersInvariant, ProbingSound, NoProbeUnclosed, CleanupsInOrder;
    ReachableServerInvariant(events, invalidate);
  }

  /** What the user is told about a peer is `peer_connected`, then data, requests and
      errors, then at most one `peer_closed`; nothing without a positive verdict. */
  lemma ServerTellsInOrder(events: seq<Event>, invalidate: bool, p: PeerId)
    ensures var c := Run(InitialServer, events, invalidate).core;
            && Lifecycle(NotesOf(c.log, p), p)
            && (NotesOf(c.log, p) != [] ==> p in c.members.known && c.members.known[p].verdict == Some(true))
  {
    hide Run, BaseInvariant, SessionInvariant, Lifecycle, NotesOf;
    ReachableServerInvariant(events, invalidate);
    assert PeerStage(Run(InitialServer, events, invalidate).core, p);
  }

  /** No peer leaves the map, and no probe peer its field, before its close ran or was
      posted; a destroyed peer was closed; and neither is ever assigned over. */
  lemma NoServerPeerReleasedUnclosed(events: seq<Event>, invalidate: bool, p: PeerId, probe: Probe)
    ensures var s := Run(InitialServer, events, invalidate);
            var m, k := s.core.members, s.core.probing;
            && (IsOpen(m, p) ==> !m.known[p].released && (p in m.peers || ClosePosted(s.io, p)))
            && (probe in k.open ==> k.peer == Some(probe) || ProbeCloseTask(probe) in s.io)
            && m.nextPeerId + 1 !in m.peers
            && (probe in k.connects && IsCurrentProbe(s.core, probe) ==> k.peer.None?)
  {
    hide Run, TokensSound, EmissionsDisciplined, TasksKnown, CleanupsInOrder, AcceptorAlive, BoundAnnounced,
         ChecksSound, NeverStalled, RequestsOnPeers, LifecycleInvariant, AllAccounted, AllNarrated, AllPeersEnd;
    ReachableServerInvariant(events, invalidate);
  }

  /** A probe peer implies the timeout of its own probe; a set timeout is armed and not
      cancelled, or a queued stop will reset it. Probing never gets stuck. */
  lemma ProbesNeverStuck(events: seq<Event>, invalidate: bool)
    ensures var s := Run(InitialServer, events, invalidate);
            var k := s.core.probing;
            && (k.peer.Some? ==> k.timeout == k.peer)
            && (k.timeout.Some? ==>
                  || (s.core.scope.IsCurrent(k.timeout.value.token)
                      && k.timeout.value in k.timers && k.timeout.value !in k.cancelled)
                  || StopTask in s.io)
  {
    hide Run, EmissionsDisciplined, TasksKnown, MembersSound, AcceptorAlive, BoundAnnounced, ChecksSound, NeverStalled,
         NoProbeUnclosed, PeersInvariant, StopsFirst, NothingCurrent;
    ReachableServerInvariant(events, invalidate);
  }

  /** Probing goes on: with no dispatcher task queued, the health-check timer runs on every
      current acceptor; and it never runs on a stopped server. */
  lemma ChecksRunWhileAccepting(events: seq<Event>, invalidate: bool)
    ensures var s := Run(InitialServer, events, invalidate);
            && (CurrentAcceptor(s.core) && s.dispatcher == [] ==> s.core.checking)
            && (!s.core.scope.running && s.dispatcher == [] ==> !s.core.checking)
  {
    hide Run, BaseInvariant, PeersInvariant, CleanupsInOrder, AcceptorAlive, BoundAnnounced, NeverStalled, ProbingSound,
         NoProbeUnclosed;
    ReachableServerInvariant(events, invalidate);
  }

  /** A success callback only ever receives what was read from the peer its request was
      sent on, with the same request id; every pending request names a peer in the map;
      and each request is called back once. */
  lemma ResponsesStayOnTheirPeer(events: seq<Event>, invalidate: bool, b: Callback, id: RequestId)
    ensures var c := Run(InitialServer, events, invalidate).core;
            && (id in c.requests.pending ==>
                  c.requests.pending[id].connection in c.members.peers
                  && c.requests.pending[id].peer == Some(c.requests.pending[id].connection))
            && (b in c.requests.callbacks ==>
                  OwnAnswer(b) && c.requests.callbacks[b] == 1 && b.id !in c.requests.pending)
  {
    hide Run, BaseInvariant, SessionInvariant, NoPeerUnclosed, LifecycleInvariant, AllAccounted, AllNarrated,
         AllPeersEnd;
    ReachableServerInvariant(events, invalidate);
  }

  /** The error an I/O task gives every pending request of peer `p`. */
  function EndingCode(task: IoTask, p: PeerId): Option<ErrorCode> {
    match task
    case StopTask => Some(OperationAborted)
    case ClosePeerRequest(q) => if q == p then Some(OperationAborted) else None
    case FailRequests(q, code) => if q == p then Some(code) else None
    case ForgetPeer(q) => if q == p then Some(ConnectionReset) else None
    case _ => None
  }

  /** A stop, a local close, an error or a close of a peer calls back exactly that peer's
      requests, each with its error; an answer calls back its own request; and no
      other request of any peer is touched. */
  lemma EndsExactlyItsRequests(events: seq<Event>, invalidate: bool, ok: bool, order: seq<PeerId>, id: RequestId)
    requires var s := Run(InitialServer, events, invalidate); s.io != [] && id in s.core.requests.pending
    ensures var s := Run(InitialServer, events, invalidate);
            var r, t := s.core.requests, RunIoTask(s.core, s.io[0], ok, order).core.requests;
            var p := r.pending[id].connection;
            var code := EndingCode(s.io[0], p);
            var answer := s.io[0].ForwardResponse? && s.io[0].peer == p && s.io[0].id == id;
            && (code.Some? ==> id !in t.pending && Callback(id, p, Failed(code.value)) in t.callbacks)
            && (answer ==> id !in t.pending && Callback(id, p, Answered(p, id, s.io[0].data)) in t.callbacks)
            && (code.None? && !answer ==> id in t.pending && t.pending[id] == r.pending[id])
  {
    hide Run, ServerInvariant, RunIoTask;
    var s := Run(InitialServer, events, invalidate);
    ReachableServerInvariant(events, invalidate);
    PendingPeerKnown(s, id);
    TaskEndsRequests(s.core, s.io[0], ok, order, id);
  }

  lemma PendingPeerKnown(s: Server, id: RequestId)
    requires ServerInvariant(s) && id in s.core.requests.pending
    ensures var p := s.core.requests.pending[id].connection;
            s.core.requests.pending[id] == Pending(Some(p), p) && p in s.core.members.peers && p in s.core.members.known
    ensures id <= s.core.requests.nextId
  {
    hide SessionInvariant, NoPeerUnclosed, LifecycleInvariant, AllAccounted, AllNarrated, AllPeersEnd;
  }

  lemma TaskEndsRequests(c: Core, task: IoTask, ok: bool, order: seq<PeerId>, id: RequestId)
    requires id in c.requests.pending
    requires var p := c.requests.pending[id].connection;
             c.requests.pending[id] == Pending(Some(p), p) && p in c.members.peers && p in c.members.known
    requires id <= c.requests.nextId
    ensures var t, p := RunIoTask(c, task, ok, order).core.requests, c.requests.pending[id].connection;
            var code, answer := EndingCode(task, p), task.ForwardResponse? && task.peer == p && task.id == id;
            && (code.Some? ==> id !in t.pending && Callback(id, p, Failed(code.value)) in t.callbacks)
            && (answer ==> id !in t.pending && Callback(id, p, Answered(p, id, task.data)) in t.callbacks)
            && (code.None? && !answer ==> id in t.pending && t.pending[id] == c.requests.pending[id])
  {
    hide FailAll, Expel, Emit;
    match task
    case StopTask => FailAllEffect(c.requests, c.requests.pending.Keys, OperationAborted, id);
    case ClosePeerRequest(q) => FailAllEffect(c.requests, OfPeer(c.requests, q), OperationAborted, id);
    case FailRequests(q, code) => FailAllEffect(c.requests, OfPeer(c.requests, q), code, id);
    case ForgetPeer(q) => FailAllEffect(c.requests, OfPeer(c.requests, q), ConnectionReset, id);
    case _ =>
  }

  /** In every reachable state the expired timer has exactly the effect whose
      confinement `ServerTimeoutIsConfined` states. */
  lemma ServerTimeoutHandled(events: seq<Event>, invalidate: bool, id: RequestId)
    requires id in Run(InitialServer, events, invalidate).core.requests.pending
    ensures var c := Run(InitialServer, events, invalidate).core;
            && Conserved(c.requests) && c.requests.pending[id].peer.Some?
            && RequestTimer(c, id, true, invalidate).core.requests == ServerTimeout(c.requests, id, invalidate)
  {
    hide Run, TokensSound, EmissionsDisciplined, TasksKnown, SessionInvariant, NoPeerUnclosed, LifecycleInvariant,
         AllAccounted, AllNarrated, AllPeersEnd, Conserved, CompletePeer, TimerRuns;
    ReachableServerInvariant(events, invalidate);
  }

  /** For a verified peer of the running session that was not closed locally: whatever it
      handed over before its socket closed reaches the user, completely and in order, once
      the dispatcher has caught up; and if it was ready before closing, nothing else
      does, and its `peer_closed` comes last. */
  lemma ServerDropsNothing(events: seq<Event>, invalidate: bool, p: PeerId)
    requires var s := Run(InitialServer, events, invalidate); Regular(s.core, p) && s.dispatcher == []
    ensures var c := Run(InitialServer, events, invalidate).core;
            var emitted, notes := c.members.known[p].emitted, NotesOf(c.log, p);
            && DataIn(BeforeClosing(emitted)) <= DataTold(notes)
            && (Closing !in emitted || Ready in BeforeClosing(emitted) ==>
                  DataTold(notes) == DataIn(BeforeClosing(emitted)))
            && (Closing in emitted && Ready in BeforeClosing(emitted) ==>
                  notes != [] && notes[|notes| - 1] == PeerClosed(p))
  {
    hide Run, ServerInvariant, PeerAccounted, NotesOf, Narrative, DataTold, DataIn, BeforeClosing;
    var s := Run(InitialServer, events, invalidate);
    ReachableServerInvariant(events, invalidate);
    HandledAll(s, p);
    HandledNarrative(p, s.core.members.known[p].handled, s.core.members.known[p].emitted);
  }

  /** For a peer not closed locally, and with the dispatcher idle, that is exactly when it was
      ready before it closed: a ready deadline that fires after the close still announces
      the peer, and nothing ever announces its end. */
  lemma PeerClosedExactlyWhenReadyFirst(events: seq<Event>, invalidate: bool, p: PeerId)
    requires var s := Run(InitialServer, events, invalidate); Regular(s.core, p) && s.dispatcher == []
    ensures var c := Run(InitialServer, events, invalidate).core;
            var emitted := c.members.known[p].emitted;
            PeerClosed(p) in NotesOf(c.log, p) <==> Closing in emitted && Ready in BeforeClosing(emitted)
  {
    hide Run, ServerInvariant, PeerAccounted, NotesOf, Narrative, DataTold, DataIn, BeforeClosing, Disciplined;
    var s := Run(InitialServer, events, invalidate);
    ReachableServerInvariant(events, invalidate);
    HandledAll(s, p);
    var handled, emitted := s.core.members.known[p].handled, s.core.members.known[p].emitted;
    HandledNarrative(p, handled, emitted);
    DisciplinedPrefix(emitted, |handled|);
    assert emitted[..|handled|] == handled;
    if PeerClosed(p) in Narrative(p, handled) {
      ClosedWasReady(p, handled);
      PrefixBeforeClosing(handled, emitted);
    }
  }

  lemma HandledAll(s: Server, p: PeerId)
    requires ServerInvariant(s) && Regular(s.core, p) && s.dispatcher == []
    ensures var r := s.core.members.known[p];
            && r.handled <= r.emitted && (Closing in r.handled || r.handled == r.emitted)
            && Disciplined(r.emitted) && NotesOf(s.core.log, p) == Narrative(p, r.handled)
  {
    hide SessionInvariant, MembersSound, TokensSound, TasksKnown, NoPeerUnclosed, RequestsOnPeers, LifecycleInvariant,
         AllPeersEnd, Disciplined, NotesOf, Narrative, ExposureAfter;
    assert PeerAccounted(s, p) && PeerNarrated(s.core, p);
  }

  lemma HandledNarrative(p: PeerId, handled: seq<Signal>, emitted: seq<Signal>)
    requires handled <= emitted && (Closing in handled || handled == emitted) && Disciplined(emitted)
    ensures var notes, before := Narrative(p, handled), BeforeClosing(emitted);
            && DataIn(before) <= DataTold(notes)
            && (Closing !in emitted || Ready in before ==> DataTold(notes) == DataIn(before))
            && (Closing in emitted && Ready in before ==> notes != [] && notes[|notes| - 1] == PeerClosed(p))
  {
    hide Disciplined, Narrative, DataTold, DataIn, BeforeClosing;
    var before := BeforeClosing(emitted);
    if Closing in handled {
      PrefixBeforeClosing(handled, emitted);
    }
    DisciplinedPrefix(emitted, |handled|);
    assert emitted[..|handled|] == handled;
    if Closing in handled && Ready !in before {
      BeforeClosingIsPrefix(emitted);
      DisciplinedPrefix(emitted, |before|);
      assert emitted[..|before|] == before;
      NoDataBeforeReady(before);
    } else {
      NarrativeKeepsData(p, handled);
    }
  }

  /** `peer_closed`, exactly, for every peer of the running session that was not refused,
      closed locally or not, and in every reachable state: it was told if and only if the
      server's dispatcher handled a close after a ready. */
  lemma PeerClosedExactly(events: seq<Event>, invalidate: bool, p: PeerId)
    requires Unrefused(Run(InitialServer, events, invalidate).core, p)
    ensures var c := Run(InitialServer, events, invalidate).core;
            PeerClosed(p) in NotesOf(c.log, p) <==> ReadyThenClosed(c.members.known[p].handled)
  {
    hide Run, ServerInvariant, NotesOf, ReadyThenClosed;
    ReachableServerInvariant(events, invalidate);
    ToldWhenHandled(Run(InitialServer, events, invalidate), p);
  }

  /** With both queues empty, every closed peer of the running session that was not refused
      has had its close handled, and so has had its `peer_closed` unless it was announced late. */
  lemma CloseIsHandled(s: Server, p: PeerId)
    requires ServerInvariant(s) && Unrefused(s.core, p) && s.dispatcher == [] && s.io == []
    requires p !in s.core.members.peers || !IsOpen(s.core.members, p) || s.core.members.known[p].removed
    ensures Closing in s.core.members.known[p].handled
  {
    hide BaseInvariant, SessionInvariant, RequestsOnPeers, LifecycleInvariant, AllNarrated;
    assert PeerEnds(s, p);
    if !s.core.members.known[p].removed {
      assert PeerAccounted(s, p);
    }
  }

  // --------------------------------------------- what only grows along a run

  ghost predicate Continues(s: Server, t: Server, p: PeerId)
    requires p in s.core.members.known
  {
    && s.core.log <= t.core.log && s.core.scope.generation <= t.core.scope.generation
    && p in t.core.members.known && t.core.members.known[p].token == s.core.members.known[p].token
    && s.core.members.known[p].handled <= t.core.members.known[p].handled
  }

  lemma StepContinues(s: Server, e: Event, invalidate: bool, p: PeerId)
    requires MembersSound(s.core.members) && p in s.core.members.known
    ensures Continues(s, Step(s, e, invalidate), p)
  {
    hide RunDispatcherTask, RunIoTask, Happens, MembersAfterDispatcher, MembersAfterIo, MembersAfterEvent,
         ListeningAfterIo, ListeningAfterEvent, MembersSound, MayEmit, Enumerates;
    if Enabled(s, e) {
      match e
      case RunDispatcher(verified) =>
        DispatcherFrame(s.core, s.dispatcher[0], verified);
        DispatcherRecord(s.core, s.dispatcher[0], verified, p);
        DispatcherEffectLog(s.core, s.dispatcher[0], verified);
      case RunIo(ok, order) =>
        IoFrame(s.core, s.io[0], ok, order);
        IoRecord(s.core.members, s.io[0], p);
      case _ =>
        EventFrame(s.core, e, invalidate);
        EventRecord(s.core, e, Step(s, e, invalidate).core.members, p);
    }
  }

  lemma ServerMembers(s: Server)
    requires ServerInvariant(s)
    ensures MembersSound(s.core.members)
  {
  }

  lemma {:induction false} RunContinues(s: Server, more: seq<Event>, invalidate: bool, p: PeerId)
    requires ServerInvariant(s) && p in s.core.members.known
    ensures ServerInvariant(Run(s, more, invalidate)) && Continues(s, Run(s, more, invalidate), p)
    decreases |more|
  {
    hide ServerInvariant, Step;
    if more != [] {
      ServerMembers(s);
      StepContinues(s, more[0], invalidate, p);
      StepKeepsServerInvariant(s, more[0], invalidate);
      RunContinues(Step(s, more[0], invalidate), more[1..], invalidate, p);
    }
  }

  lemma {:induction false} NotesOfIn(log: seq<Entry>, note: UserNote, p: PeerId)
    ensures note in NotesOf(log, p) <==> note.About(p) && exists entry :: entry in log && entry.note == note
    decreases |log|
  {
    if log != [] {
      var before, last := log[..|log| - 1], log[|log| - 1];
      assert log == before + [last];
      NotesOfIn(before, note, p);
    }
  }

  /** What a caller can rely on: whenever a peer is closed, by either side, after its
      `peer_connected` was told, its `peer_closed` has been told once both queues are
      empty, unless the session was stopped in between. */
  lemma ClosedAfterConnectedIsTold(events: seq<Event>, more: seq<Event>, invalidate: bool, p: PeerId)
    requires var s := Run(InitialServer, events, invalidate);
             PeerConnected(p) in NotesOf(s.core.log, p) && IsOpen(s.core.members, p)
    ensures var t := Run(Run(InitialServer, events, invalidate), more, invalidate);
            && p in t.core.members.known
            && (t.core.scope.IsCurrent(t.core.members.known[p].token) && t.dispatcher == [] && t.io == []
                && (p !in t.core.members.peers || !IsOpen(t.core.members, p))
                ==> PeerClosed(p) in NotesOf(t.core.log, p))
  {
    hide Run, ServerInvariant, NotesOf, Narrative, ReadyThenClosed;
    var s := Run(InitialServer, events, invalidate);
    var t := Run(s, more, invalidate);
    ReachableServerInvariant(events, invalidate);
    RunContinues(s, more, invalidate, p);
    if t.core.scope.IsCurrent(t.core.members.known[p].token) && t.dispatcher == [] && t.io == []
       && (p !in t.core.members.peers || !IsOpen(t.core.members, p))
    {
      NotesOfIn(s.core.log, PeerConnected(p), p);
      NotesOfIn(t.core.log, PeerConnected(p), p);
      ConnectedIsUnrefused(s, p);
      ConnectedIsUnrefused(t, p);
      ReadyHandled(s, p);
      CloseIsHandled(t, p);
      HandledInOrder(s.core.members.known[p].handled, t.core.members.known[p].handled);
      ToldWhenHandled(t, p);
    }
  }

  /** A peer of the running session the user was told of was not refused. */
  lemma ConnectedIsUnrefused(s: Server, p: PeerId)
    requires ServerInvariant(s) && PeerConnected(p) in NotesOf(s.core.log, p)
    ensures p in s.core.members.known && s.core.members.known[p].token <= s.core.scope.generation
    ensures s.core.members.known[p].token == s.core.scope.generation ==> Unrefused(s.core, p)
  {
    hide SessionInvariant, NoPeerUnclosed, RequestsOnPeers, AllAccounted, AllNarrated, AllPeersEnd, NotesOf, Lifecycle,
         Connected, EmissionsDisciplined, TasksKnown;
    assert PeerStage(s.core, p);
  }

  lemma ReadyHandled(s: Server, p: PeerId)
    requires ServerInvariant(s) && Unrefused(s.core, p)
    requires PeerConnected(p) in NotesOf(s.core.log, p) && IsOpen(s.core.members, p)
    ensures Ready in s.core.members.known[p].handled && Closing !in s.core.members.known[p].handled
  {
    hide BaseInvariant, SessionInvariant, NoPeerUnclosed, RequestsOnPeers, LifecycleInvariant, AllAccounted, NotesOf,
         Narrative, ExposureAfter;
    assert PeerNarrated(s.core, p) && PeerEnds(s, p);
    ConnectedWasReady(p, s.core.members.known[p].handled);
  }

  lemma HandledInOrder(before: seq<Signal>, after: seq<Signal>)
    requires before <= after && Ready in before && Closing !in before && Closing in after
    ensures ReadyThenClosed(after)
  {
    var i :| 0 <= i < |before| && before[i] == Ready;
    var j :| 0 <= j < |after| && after[j] == Closing;
    assert forall k :: 0 <= k < |before| ==> after[k] == before[k] && before[k] != Closing;
  }

  lemma ToldWhenHandled(s: Server, p: PeerId)
    requires ServerInvariant(s) && Unrefused(s.core, p)
    ensures PeerClosed(p) in NotesOf(s.core.log, p) <==> ReadyThenClosed(s.core.members.known[p].handled)
  {
    hide BaseInvariant, SessionInvariant, NoPeerUnclosed, RequestsOnPeers, LifecycleInvariant, AllAccounted,
         AllPeersEnd, NotesOf, Narrative, ExposureAfter, ReadyThenClosed;
    assert PeerNarrated(s.core, p);
    ClosedIsToldExactly(p, s.core.members.known[p].handled);
  }

  /** A refused peer's connection is closed: its close is requested, or it has left the map. */
  lemma RefusedPeerIsClosed(events: seq<Event>, invalidate: bool, p: PeerId)
    ensures var s := Run(InitialServer, events, invalidate);
            p in s.core.members.peers && p in s.core.members.known && s.core.members.known[p].verdict == Some(false) ==>
              ClosePeerRequest(p) in s.io
  {
    hide Run, BaseInvariant, SessionInvariant, NoPeerUnclosed, RequestsOnPeers, LifecycleInvariant, AllAccounted,
         AllNarrated;
    ReachableServerInvariant(events, invalidate);
  }

  // ---------------------------------------------------------- cutting sessions

  /** A peer accepted under a token the scope has moved past. */
  predicate Cut(c: Core, p: PeerId) {
    p in c.members.known && c.members.known[p].token < c.scope.generation
  }

  lemma StepTellsNothingOfCut(s: Server, e: Event, invalidate: bool, p: PeerId)
    requires ServerInvariant(s) && Cut(s.core, p)
    ensures var t := Step(s, e, invalidate);
            Cut(t.core, p) && NotesOf(t.core.log, p) == NotesOf(s.core.log, p)
  {
    hide BaseInvariant, SessionInvariant, NoPeerUnclosed, RequestsOnPeers, AllAccounted, AllNarrated, AllPeersEnd,
         NotesOf, PeerStage, TicketSound, TicketsUnique, RunDispatcherTask, RunIoTask, Happens, MembersAfterDispatcher,
         MembersAfterIo, MembersAfterEvent, ListeningAfterIo, ListeningAfterEvent, MayEmit, Enumerates;
    StepKeepsServerInvariant(s, e, invalidate);
    BaseMembers(s);
    if Enabled(s, e) {
      match e
      case RunDispatcher(verified) => DispatcherTellsNothingOfCut(s, verified, invalidate, p);
      case RunIo(ok, order) =>
        IoFrame(s.core, s.io[0], ok, order);
        IoRecord(s.core.members, s.io[0], p);
      case _ =>
        EventFrame(s.core, e, invalidate);
        EventRecord(s.core, e, Step(s, e, invalidate).core.members, p);
    }
  }

  lemma BaseMembers(s: Server)
    requires BaseInvariant(s)
    ensures MembersSound(s.core.members)
  {
  }

  lemma DispatcherTellsNothingOfCut(s: Server, verified: bool, invalidate: bool, p: PeerId)
    requires s.dispatcher != [] && Cut(s.core, p) && ServerInvariant(Step(s, RunDispatcher(verified), invalidate))
    ensures var t := Step(s, RunDispatcher(verified), invalidate);
            Cut(t.core, p) && NotesOf(t.core.log, p) == NotesOf(s.core.log, p)
  {
    hide BaseInvariant, SessionInvariant, NoPeerUnclosed, RequestsOnPeers, AllAccounted, AllNarrated, AllPeersEnd,
         NotesOf, PeerStage, TicketSound, TicketsUnique, RunDispatcherTask, MembersAfterDispatcher;
    var c, task := s.core, s.dispatcher[0];
    var t := Step(s, RunDispatcher(verified), invalidate);
    var told := ToldBy(c, task, verified);
    DispatcherFrame(c, task, verified);
    DispatcherRecord(c, task, verified, p);
    DispatcherEffectLog(c, task, verified);
    if told.Some? {
      var entry := Entry(told.value, c.scope.generation);
      assert entry in t.core.log;
      NotesOfAppend(c.log, entry, p);
    }
  }

  /** Once the scope has moved on, the user hears nothing more of a peer accepted before,
      in any continuation, restarts included; nor is it exposed. */
  lemma {:induction false} CutPeersStaySilent(s: Server, more: seq<Event>, invalidate: bool, p: PeerId)
    requires ServerInvariant(s) && Cut(s.core, p)
    ensures var t := Run(s, more, invalidate);
            NotesOf(t.core.log, p) == NotesOf(s.core.log, p) && p !in t.core.members.exposed
    decreases |more|
  {
    hide ServerInvariant, Step, NotesOf;
    if more != [] {
      StepKeepsServerInvariant(s, more[0], invalidate);
      StepTellsNothingOfCut(s, more[0], invalidate, p);
      CutPeersStaySilent(Step(s, more[0], invalidate), more[1..], invalidate, p);
    } else {
      CutIsHidden(s, p);
    }
  }

  lemma CutIsHidden(s: Server, p: PeerId)
    requires ServerInvariant(s) && Cut(s.core, p)
    ensures p !in s.core.members.exposed
  {
    hide BaseInvariant, SessionInvariant, NoPeerUnclosed, RequestsOnPeers, AllAccounted, AllNarrated, AllPeersEnd,
         NotesOf, PeerStage, TicketSound, TicketsUnique;
  }

  /** Processing a stop cuts every peer accepted so far, for good. */
  lemma StopCutsSessions(events: seq<Event>, more: seq<Event>, verified: bool, invalidate: bool, p: PeerId)
    requires var s := Run(InitialServer, events, invalidate);
             s.dispatcher != [] && s.dispatcher[0] == UserStop && p in s.core.members.known
    ensures var s := Run(InitialServer, events, invalidate);
            var t := Run(Step(s, RunDispatcher(verified), invalidate), more, invalidate);
            NotesOf(t.core.log, p) == NotesOf(s.core.log, p) && p !in t.core.members.exposed
  {
    hide Run, SessionInvariant, PeersInvariant, NotesOf, EmissionsDisciplined, TasksKnown;
    var s := Run(InitialServer, events, invalidate);
    ReachableServerInvariant(events, invalidate);
    StepKeepsServerInvariant(s, RunDispatcher(verified), invalidate);
    CutPeersStaySilent(Step(s, RunDispatcher(verified), invalidate), more, invalidate, p);
  }
}
