/** Peers announced after their end. The user is told `peer_connected` when the ready
    notification is handled; two runs in which an end is handled first, so that no
    `peer_closed` ever matches it. */
module ServerLateReady {
  import opened Common
  import opened NotificationScope
  import opened Requests
  import opened ServerModel
  import opened ServerLifecycle
  import opened ServerDelivery
  import opened ServerTheorems

  /** One more event. */
  lemma Extend(events: seq<Event>, e: Event, s: Server, t: Server)
    requires Run(InitialServer, events, false) == s && Step(s, e, false) == t
    ensures Run(InitialServer, events + [e], false) == t
  {
    hide Step;
    RunSplit(InitialServer, events, [e], false);
    assert [e][1..] == [];
    assert Run(s, [e], false) == Step(s, e, false);
  }

  const Listener := Acceptor(0, 0)
  const Connections := Listening(Some(Listener), multiset{Accept(Listener, 0)}, 1)
  const BoundNote := Notify(0, Deliver(Bound))
  const ListeningCore := InitialCore.(scope := Scope(true, 0), listening := Connections)
  const ListeningServer := Server(ListeningCore, [BoundNote], [])
  const NewRecord := PeerRecord(0, [], {}, [], None, false, false)
  const BoundTold := [Entry(OfSession(Bound), 0)]
  const BothTold := BoundTold + [Entry(PeerConnected(1), 0)]

  function WithPeer(r: PeerRecord, peers: set<PeerId>, exposed: set<PeerId>): Core {
    ListeningCore.(members := Members(peers, exposed, map[1 := r], 1))
  }

  function Accepting(): seq<Event> {
    [CallStart] + [RunDispatcher(true)] + [RunIo(true, [])] + [AcceptCompletes(Accept(Listener, 0), Accepted)]
  }

  /** A server that has just accepted its first peer. */
  const AcceptedServer := Server(WithPeer(NewRecord, {1}, {}), [BoundNote], [])

  lemma Accepts()
    ensures Run(InitialServer, Accepting(), false) == AcceptedServer
  {
    var called := InitialServer.(dispatcher := [UserStart]);
    var started := Server(InitialCore.(scope := Scope(true, 0)), [], [BindTask(0)]);
    assert Step(InitialServer, CallStart, false) == called;
    assert Step(called, RunDispatcher(true), false) == started;
    assert Step(started, RunIo(true, []), false) == ListeningServer;
    assert Step(ListeningServer, AcceptCompletes(Accept(Listener, 0), Accepted), false) == AcceptedServer;
    hide Run, Step;
    RunNothing();
    assert [] + [CallStart] == [CallStart];
    Extend([], CallStart, InitialServer, called);
    Extend([CallStart], RunDispatcher(true), called, started);
    Extend([CallStart] + [RunDispatcher(true)], RunIo(true, []), started, ListeningServer);
    Extend([CallStart] + [RunDispatcher(true)] + [RunIo(true, [])], AcceptCompletes(Accept(Listener, 0), Accepted),
           ListeningServer, AcceptedServer);
  }

  lemma RunNothing()
    ensures Run(InitialServer, [], false) == InitialServer
  {
  }

  lemma OnePeer(m: Members, r: PeerRecord, signal: Signal)
    requires m.known == map[1 := r]
    requires !signal.Response?
    ensures Emit(m, 1, signal).known == map[1 := r.(emitted := r.emitted + [signal])]
    ensures Handle(m, 1, signal).known == map[1 := r.(handled := r.handled + [signal])]
  {
  }

  lemma Pairs()
    ensures [] + [Closing] == [Closing] && [] + [Ready] == [Ready]
    ensures [Closing] + [Ready] == [Closing, Ready] && [Ready] + [Closing] == [Ready, Closing]
  {
  }

  /** The user was told of `p` and sees it, its socket is closed, and nothing queued
      could still tell its end. */
  predicate Unmatched(s: Server, p: PeerId) {
    && s.dispatcher == [] && s.io == [] && Unrefused(s.core, p) && Closing in s.core.members.known[p].emitted
    && PeerConnected(p) in NotesOf(s.core.log, p) && PeerClosed(p) !in NotesOf(s.core.log, p)
    && p in s.core.members.exposed
  }

  lemma ConnectedButNotClosed(s: Server)
    requires s.core.log == BothTold
    ensures PeerConnected(1) in NotesOf(s.core.log, 1) && PeerClosed(1) !in NotesOf(s.core.log, 1)
  {
    NotesOfAppend([], BoundTold[0], 1);
    NotesOfAppend(BoundTold, Entry(PeerConnected(1), 0), 1);
    assert [] + BoundTold == BoundTold;
    assert NotesOf(BothTold, 1) == [PeerConnected(1)];
  }

  /** The probe a first health check starts. */
  const FirstProbe := Probe(0, 0)
  const ProbingOne := Probing(Some(FirstProbe), None, {FirstProbe}, {FirstProbe}, {}, {}, {}, 1)

  // ----------------------------------------- the ready deadline fires too late

  const LateEmitted := NewRecord.(emitted := [Closing, Ready])
  const Late1 := Server(WithPeer(NewRecord.(emitted := [Closing]), {1}, {}), [BoundNote, PeerSlot(1, Closing)], [])
  const Late2 := Server(WithPeer(LateEmitted, {1}, {}), [BoundNote, PeerSlot(1, Closing), PeerSlot(1, Ready)], [])
  const LateCore := WithPeer(LateEmitted, {1}, {}).(log := BoundTold)
  const Late3 := Server(LateCore, [PeerSlot(1, Closing), PeerSlot(1, Ready), StartChecks], [])
  const Late4 := Server(LateCore, [PeerSlot(1, Ready), StartChecks, DeliverSignal(1, Closing)], [ForgetPeer(1)])
  const Late5 := Server(LateCore, [StartChecks, DeliverSignal(1, Closing), Notify(0, Verify(1))], [ForgetPeer(1)])
  const Late6 := Server(LateCore.(checking := true), [DeliverSignal(1, Closing), Notify(0, Verify(1)), RunCheck],
                        [ForgetPeer(1)])
  const LateEnded := WithPeer(LateEmitted.(handled := [Closing]), {1}, {}).(log := BoundTold, checking := true)
  const Late7 := Server(LateEnded, [Notify(0, Verify(1)), RunCheck], [ForgetPeer(1)])
  const LateTold :=
    WithPeer(LateEmitted.(handled := [Closing, Ready], verdict := Some(true)), {1}, {1})
      .(log := BothTold, checking := true)
  const Late8 := Server(LateTold, [RunCheck], [ForgetPeer(1)])
  const Late9 := Server(LateTold, [], [ForgetPeer(1), HealthCheckTask(0)])
  const LateForgotten := LateTold.(members := LateTold.members.(peers := {}))
  const Late10 := Server(LateForgotten, [], [HealthCheckTask(0)])
  const Late11 := Server(LateForgotten.(probing := ProbingOne), [], [])

  lemma LateStepsOne()
    ensures Step(AcceptedServer, PeerCloseRuns(1), false) == Late1
    ensures Step(Late1, PeerEmits(1, Ready), false) == Late2
  {
    Pairs();
    OnePeer(AcceptedServer.core.members, NewRecord, Closing);
    OnePeer(Late1.core.members, NewRecord.(emitted := [Closing]), Ready);
  }

  lemma LateStepsTwo()
    ensures Step(Late2, RunDispatcher(true), false) == Late3
    ensures Step(Late3, RunDispatcher(true), false) == Late4
    ensures Step(Late4, RunDispatcher(true), false) == Late5
    ensures Step(Late5, RunDispatcher(true), false) == Late6
  {
  }

  lemma LateStepsThree()
    ensures Step(Late6, RunDispatcher(true), false) == Late7
    ensures Step(Late7, RunDispatcher(true), false) == Late8
    ensures Step(Late8, RunDispatcher(true), false) == Late9
  {
    Pairs();
    OnePeer(Late6.core.members, LateEmitted, Closing);
    OnePeer(Late7.core.members, LateEmitted.(handled := [Closing]), Ready);
    assert Judge(Late7.core.members, 1, true).known == LateTold.members.known;
  }

  lemma NoRequestsFail(p: PeerId, code: ErrorCode)
    ensures CompletePeer(NoRequests, p, code) == NoRequests
  {
    assert OfPeer(NoRequests, p) == {} && Failures(NoRequests, {}, code) == {};
  }

  lemma LateStepsFour()
    ensures Step(Late9, RunIo(true, []), false) == Late10
    ensures Step(Late10, RunIo(true, []), false) == Late11
  {
    hide CompletePeer;
    NoRequestsFail(1, ConnectionReset);
    assert {1} - {1} == {};
  }

  function LateRun(): seq<Event> {
    Accepting() + [PeerCloseRuns(1)] + [PeerEmits(1, Ready)]
    + [RunDispatcher(true)] + [RunDispatcher(true)] + [RunDispatcher(true)] + [RunDispatcher(true)]
    + [RunDispatcher(true)] + [RunDispatcher(true)] + [RunDispatcher(true)]
    + [RunIo(true, [])] + [RunIo(true, [])]
  }

  lemma LateRunReaches()
    ensures Run(InitialServer, LateRun(), false) == Late11
  {
    Accepts();
    LateStepsOne();
    LateStepsTwo();
    LateStepsThree();
    LateStepsFour();
    hide Run, Step;
    var d := RunDispatcher(true);
    var e1 := Accepting() + [PeerCloseRuns(1)];
    Extend(Accepting(), PeerCloseRuns(1), AcceptedServer, Late1);
    Extend(e1, PeerEmits(1, Ready), Late1, Late2);
    var e2 := e1 + [PeerEmits(1, Ready)];
    Extend(e2, d, Late2, Late3);
    Extend(e2 + [d], d, Late3, Late4);
    Extend(e2 + [d] + [d], d, Late4, Late5);
    Extend(e2 + [d] + [d] + [d], d, Late5, Late6);
    var e6 := e2 + [d] + [d] + [d] + [d];
    Extend(e6, d, Late6, Late7);
    Extend(e6 + [d], d, Late7, Late8);
    Extend(e6 + [d] + [d], d, Late8, Late9);
    Extend(e6 + [d] + [d] + [d], RunIo(true, []), Late9, Late10);
    Extend(e6 + [d] + [d] + [d] + [RunIo(true, [])], RunIo(true, []), Late10, Late11);
  }

  /** It happens to a peer closed by its remote end, whose ready deadline then fires: the user
      is told `peer_connected`, and no `peer_closed` was told or is to come. */
  lemma PeerConnectedWithoutPeerClosed()
    ensures exists events ::
              var s := Run(InitialServer, events, false); Regular(s.core, 1) && Unmatched(s, 1)
  {
    hide Run;
    LateRunReaches();
    ConnectedButNotClosed(Late11);
    assert Regular(Late11.core, 1) && Unmatched(Late11, 1);
    assert Unmatched(Run(InitialServer, LateRun(), false), 1);
  }

  // --------------------------- a local close overtakes the verification

  const ReadyRecord := NewRecord.(emitted := [Ready])
  const ExpelledRecord := ReadyRecord.(removed := true)
  const ClosedRecord := ExpelledRecord.(emitted := [Ready, Closing])
  const Cut1 := Server(WithPeer(ReadyRecord, {1}, {}), [BoundNote, PeerSlot(1, Ready)], [])
  const Cut2 := Cut1.(io := [ClosePeerRequest(1)])
  const Cut3 := Server(WithPeer(ExpelledRecord, {}, {}), [BoundNote, PeerSlot(1, Ready)], [PeerCloseTask(1, true)])
  const Cut4 := Server(WithPeer(ClosedRecord, {}, {}),
                       [BoundNote, PeerSlot(1, Ready), PeerSlot(1, Closing), DeliverSignal(1, Closing)], [])
  const CutCore := WithPeer(ClosedRecord, {}, {}).(log := BoundTold)
  const Cut5 := Server(CutCore, [PeerSlot(1, Ready), PeerSlot(1, Closing), DeliverSignal(1, Closing), StartChecks], [])
  const Cut6 := Server(CutCore, [PeerSlot(1, Closing), DeliverSignal(1, Closing), StartChecks, Notify(0, Verify(1))],
                       [])
  const DestroyedRecord := ClosedRecord.(released := true)
  const DestroyedCore := WithPeer(DestroyedRecord, {}, {}).(log := BoundTold)
  const Cut7 := Server(DestroyedCore,
                       [PeerSlot(1, Closing), DeliverSignal(1, Closing), StartChecks, Notify(0, Verify(1))], [])
  const Cut8 := Server(DestroyedCore, [DeliverSignal(1, Closing), StartChecks, Notify(0, Verify(1))], [])
  const EndedCore := WithPeer(DestroyedRecord.(handled := [Closing]), {}, {}).(log := BoundTold)
  const Cut9 := Server(EndedCore, [StartChecks, Notify(0, Verify(1))], [])
  const Cut10 := Server(EndedCore.(checking := true), [Notify(0, Verify(1)), RunCheck], [])
  const CutTold :=
    WithPeer(DestroyedRecord.(handled := [Closing, Ready], verdict := Some(true)), {}, {1})
      .(log := BothTold, checking := true)
  const Cut11 := Server(CutTold, [RunCheck], [])
  const Cut12 := Server(CutTold, [], [HealthCheckTask(0)])
  const Cut13 := Server(CutTold.(probing := ProbingOne), [], [])

  lemma CutStepsOne()
    ensures Step(AcceptedServer, PeerEmits(1, Ready), false) == Cut1
    ensures Step(Cut1, CallClosePeer(1), false) == Cut2
  {
    Pairs();
    OnePeer(AcceptedServer.core.members, NewRecord, Ready);
  }

  lemma CutStepsTwo()
    ensures Step(Cut2, RunIo(true, []), false) == Cut3
    ensures Step(Cut3, RunIo(true, []), false) == Cut4
  {
    hide CompletePeer;
    NoRequestsFail(1, OperationAborted);
    Pairs();
    assert {1} - {1} == {};
    OnePeer(Cut3.core.members, ExpelledRecord, Closing);
    assert Expel(Cut2.core.members, 1).known == map[1 := ExpelledRecord];
  }

  lemma CutStepsThree()
    ensures Step(Cut4, RunDispatcher(true), false) == Cut5
    ensures Step(Cut5, RunDispatcher(true), false) == Cut6
  {
  }

  lemma CutStepsFour()
    ensures Step(Cut6, PeerDestroyed(1), false) == Cut7
    ensures Step(Cut7, RunDispatcher(true), false) == Cut8
  {
    assert Update(Cut6.core.members, 1, DestroyedRecord).known == map[1 := DestroyedRecord];
  }

  lemma CutStepsFive()
    ensures Step(Cut8, RunDispatcher(true), false) == Cut9
    ensures Step(Cut9, RunDispatcher(true), false) == Cut10
  {
    Pairs();
    OnePeer(Cut8.core.members, DestroyedRecord, Closing);
  }

  lemma CutStepsSix()
    ensures Step(Cut10, RunDispatcher(true), false) == Cut11
    ensures Step(Cut11, RunDispatcher(true), false) == Cut12
    ensures Step(Cut12, RunIo(true, []), false) == Cut13
  {
    Pairs();
    OnePeer(Cut10.core.members, DestroyedRecord.(handled := [Closing]), Ready);
    assert Judge(Cut10.core.members, 1, true).known == CutTold.members.known;
  }

  function CutRun(): seq<Event> {
    Accepting() + [PeerEmits(1, Ready)] + [CallClosePeer(1)] + [RunIo(true, [])] + [RunIo(true, [])]
    + [RunDispatcher(true)] + [RunDispatcher(true)] + [PeerDestroyed(1)]
    + [RunDispatcher(true)] + [RunDispatcher(true)] + [RunDispatcher(true)] + [RunDispatcher(true)]
    + [RunDispatcher(true)]
    + [RunIo(true, [])]
  }

  lemma CutRunReaches()
    ensures Run(InitialServer, CutRun(), false) == Cut13
  {
    Accepts();
    CutStepsOne();
    CutStepsTwo();
    CutStepsThree();
    CutStepsFour();
    CutStepsFive();
    CutStepsSix();
    hide Run, Step;
    var d, i := RunDispatcher(true), RunIo(true, []);
    var e1 := Accepting() + [PeerEmits(1, Ready)];
    Extend(Accepting(), PeerEmits(1, Ready), AcceptedServer, Cut1);
    Extend(e1, CallClosePeer(1), Cut1, Cut2);
    var e2 := e1 + [CallClosePeer(1)];
    Extend(e2, i, Cut2, Cut3);
    Extend(e2 + [i], i, Cut3, Cut4);
    var e4 := e2 + [i] + [i];
    Extend(e4, d, Cut4, Cut5);
    Extend(e4 + [d], d, Cut5, Cut6);
    Extend(e4 + [d] + [d], PeerDestroyed(1), Cut6, Cut7);
    var e7 := e4 + [d] + [d] + [PeerDestroyed(1)];
    Extend(e7, d, Cut7, Cut8);
    Extend(e7 + [d], d, Cut8, Cut9);
    Extend(e7 + [d] + [d], d, Cut9, Cut10);
    Extend(e7 + [d] + [d] + [d], d, Cut10, Cut11);
    Extend(e7 + [d] + [d] + [d] + [d], d, Cut11, Cut12);
    Extend(e7 + [d] + [d] + [d] + [d] + [d], i, Cut12, Cut13);
  }

  /** It also happens to a peer that was ready before the server closed it: the close's
      notification overtakes the verification, and the destroyed peer's own `closed`
      signal is dropped. */
  lemma LocalCloseOvertakesVerification()
    ensures exists events ::
              var s := Run(InitialServer, events, false);
              Unmatched(s, 1) && s.core.members.known[1].removed && s.core.members.known[1].emitted == [Ready, Closing]
  {
    hide Run;
    CutRunReaches();
    ConnectedButNotClosed(Cut13);
    assert Unmatched(Cut13, 1);
    assert Unmatched(Run(InitialServer, CutRun(), false), 1);
  }
}
