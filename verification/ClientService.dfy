/** The client can always connect: from every reachable state some continuation connects anew
    and tells the user everything about the connection, from `connected` to `closed`. */
module ClientService {
  import opened Common
  import opened Queues
  import opened NotificationScope
  import opened Requests
  import opened ClientModel
  import opened ClientProofs
  import opened ClientProgress
  import opened ClientOrder
  import opened ClientTheorems
  import opened ClientSettles

  /** `t` is a continuation of `s`. */
  ghost predicate Reaches(s: Client, t: Client, invalidate: bool) {
    exists events :: Run(s, events, invalidate) == t
  }

  lemma ReachesSelf(s: Client, invalidate: bool)
    ensures Reaches(s, s, invalidate)
  {
    assert Run(s, [], invalidate) == s;
  }

  lemma ReachesRun(s: Client, t: Client, more: seq<Event>, invalidate: bool)
    requires Reaches(s, t, invalidate)
    ensures Reaches(s, Run(t, more, invalidate), invalidate)
  {
    hide Run;
    var events :| Run(s, events, invalidate) == t;
    RunSplit(s, events, more, invalidate);
    assert Run(s, events + more, invalidate) == Run(t, more, invalidate);
  }

  lemma ReachesStep(s: Client, t: Client, e: Event, invalidate: bool)
    requires Reaches(s, t, invalidate)
    ensures Reaches(s, Step(t, e, invalidate), invalidate)
  {
    hide Run, Step;
    RunOne(t, e, invalidate);
    ReachesRun(s, t, [e], invalidate);
  }

  lemma ReachesTwice(s: Client, t: Client, u: Client, invalidate: bool)
    requires Reaches(s, t, invalidate) && Reaches(t, u, invalidate)
    ensures Reaches(s, u, invalidate)
  {
    hide Run;
    var more :| Run(t, more, invalidate) == u;
    ReachesRun(s, t, more, invalidate);
  }

  lemma ReachedKeepsInvariant(s: Client, t: Client, invalidate: bool)
    requires ClientInvariant(s) && Reaches(s, t, invalidate)
    ensures ClientInvariant(t)
  {
    hide Run, ClientInvariant;
    var events :| Run(s, events, invalidate) == t;
    EveryRunKeepsClientInvariant(s, events, invalidate);
  }

  // ---------------------------------------------------------------- connecting

  predicate Connecting(s: Client, socket: Handle) {
    && Idle(s) && s.core.scope.IsCurrent(socket.token) && s.core.session.peer.None?
    && s.core.session.connecting == Some(socket) && socket in s.core.session.connects
  }

  predicate Connected(s: Client, p: Handle) {
    && Idle(s) && s.core.scope.IsCurrent(p.token) && s.core.session.connecting.None?
    && s.core.session.peer == Some(p) && p in s.core.session.live && p in s.core.session.peers
  }

  predicate Unconnected(s: Client) {
    && Idle(s) && s.core.session.connecting.None? && s.core.session.peer.None?
    && (s.core.scope.running ==> s.core.armed)
  }

  /** What an idle client can be doing. */
  lemma IdleClient(s: Client)
    requires ClientInvariant(s) && Idle(s)
    ensures || Unconnected(s)
            || (s.core.session.connecting.Some? && Connecting(s, s.core.session.connecting.value))
            || (s.core.session.peer.Some? && Connected(s, s.core.session.peer.value))
  {
    hide TokensSound, PeersSound, RequestsOnPeer, NoPeerUnclosed, OrderInvariant, FailuresInSession;
  }

  predicate AskedToConnect(s: Client) {
    && s.dispatcher == [] && s.io == [ConnectTask(s.core.scope.generation)] && s.core.scope.running
    && s.core.session.connecting.None? && s.core.session.peer.None?
  }

  lemma TimerAsks(s: Client, invalidate: bool)
    requires Unconnected(s) && s.core.scope.running
    ensures var t := Step(s, ReconnectTimer, invalidate); AskedToConnect(t) && t.core.log == s.core.log
  {
  }

  lemma StartAsks(s: Client, invalidate: bool)
    requires Unconnected(s)
    ensures var t := Step(Step(s, CallStart, invalidate), RunDispatcher(true), invalidate);
            AskedToConnect(t) && t.core.log == s.core.log
  {
  }

  lemma AttemptConnects(s: Client, invalidate: bool)
    requires AskedToConnect(s)
    ensures var t := Step(s, RunIo(true), invalidate);
            Connecting(t, Handle(s.core.session.nextId, s.core.scope.generation)) && t.core.log == s.core.log
  {
  }

  /** An unconnected client can be made to connect. */
  lemma UnconnectedCanAttempt(s: Client, invalidate: bool) returns (t: Client, socket: Handle)
    requires Unconnected(s)
    ensures Reaches(s, t, invalidate) && Connecting(t, socket) && t.core.log == s.core.log
  {
    hide Reaches, Step, Unconnected, Connecting, AskedToConnect;
    ReachesSelf(s, invalidate);
    var asked: Client;
    if s.core.scope.running {
      asked := Step(s, ReconnectTimer, invalidate);
      ReachesStep(s, s, ReconnectTimer, invalidate);
      TimerAsks(s, invalidate);
    } else {
      var called := Step(s, CallStart, invalidate);
      asked := Step(called, RunDispatcher(true), invalidate);
      ReachesStep(s, s, CallStart, invalidate);
      ReachesStep(s, called, RunDispatcher(true), invalidate);
      StartAsks(s, invalidate);
    }
    t, socket := Step(asked, RunIo(true), invalidate), Handle(asked.core.session.nextId, asked.core.scope.generation);
    ReachesStep(s, asked, RunIo(true), invalidate);
    AttemptConnects(asked, invalidate);
  }

  // -------------------------------------------------------------- one signal

  predicate IsNote(signal: Signal) {
    signal.Data? || signal.Request? || signal.Error? || signal.Closing?
  }

  function NoteOf(p: Handle, signal: Signal): UserNote
    requires IsNote(signal)
  {
    match signal
    case Data(data) => Received(p, data)
    case Request(id, data) => RequestReceived(p, id, data)
    case Error(code) => ErrorOccurred(p, code)
    case Closing => Closed(p)
  }

  /** A queued signal of the current connection, run over its three hops. */
  lemma SignalIsTold(s: Client, p: Handle, signal: Signal, invalidate: bool) returns (t: Client)
    requires IsNote(signal) && s.dispatcher == [SignalSlot(p, signal)] && s.io == []
    requires s.core.session.peer == Some(p) && s.core.scope.IsCurrent(p.token)
    ensures Reaches(s, t, invalidate) && t.io == []
    ensures t.core.log == s.core.log + [Entry(NoteOf(p, signal), p.token)] && t.core.scope == s.core.scope
    ensures t.dispatcher == if signal.Closing? then [DebounceReconnect] else []
    ensures t.core.session == if signal.Closing? then s.core.session.(peer := None, ended := s.core.session.ended + {p})
                              else s.core.session
  {
    hide Step, Reaches;
    var posted := Step(s, RunDispatcher(true), invalidate);
    var noted := Step(posted, RunIo(true), invalidate);
    t := Step(noted, RunDispatcher(true), invalidate);
    ReachesSelf(s, invalidate);
    ReachesStep(s, s, RunDispatcher(true), invalidate);
    ReachesStep(s, posted, RunIo(true), invalidate);
    ReachesStep(s, noted, RunDispatcher(true), invalidate);
    SlotPosts(s, invalidate);
    ForwardTells(posted, p, signal, invalidate);
    NoteIsDelivered(noted, invalidate);
  }

  lemma SlotPosts(s: Client, invalidate: bool)
    requires s.dispatcher != [] && s.dispatcher[0].SignalSlot?
    ensures Step(s, RunDispatcher(true), invalidate)
         == Client(s.core, s.dispatcher[1..], s.io + [ForwardSignal(s.dispatcher[0].peer, s.dispatcher[0].signal)])
  {
  }

  lemma ForwardTells(s: Client, p: Handle, signal: Signal, invalidate: bool)
    requires IsNote(signal) && s.dispatcher == [] && s.io == [ForwardSignal(p, signal)]
    requires s.core.session.peer == Some(p)
    ensures var t := Step(s, RunIo(true), invalidate);
            && t.dispatcher == [Notify(p.token, Deliver(NoteOf(p, signal)))] && t.io == []
            && t.core == s.core.(requests := t.core.requests, session := t.core.session)
            && t.core.session == (if signal.Closing? then
                                    s.core.session.(peer := None, ended := s.core.session.ended + {p})
                                  else s.core.session)
  {
    hide CompleteAll;
  }

  lemma NoteIsDelivered(s: Client, invalidate: bool)
    requires |s.dispatcher| == 1 && s.dispatcher[0].Notify? && s.dispatcher[0].notification.Deliver?
    requires s.core.scope.IsCurrent(s.dispatcher[0].token)
    ensures var t, note := Step(s, RunDispatcher(true), invalidate), s.dispatcher[0].notification.note;
            && t.core == s.core.(log := s.core.log + [Entry(note, s.dispatcher[0].token)]) && t.io == s.io
            && t.dispatcher == if note.Reschedules() then [DebounceReconnect] else []
  {
  }

  // --------------------------------------------------------- a whole connection

  /** A connecting client can become connected, and says so. */
  lemma ConnectingCanConnect(s: Client, socket: Handle, invalidate: bool) returns (t: Client, p: Handle)
    requires Connecting(s, socket)
    ensures Reaches(s, t, invalidate) && Connected(t, p) && p.id == s.core.session.nextId
    ensures t.core.log == s.core.log + [Entry(UserNote.Connected(p), p.token)]
  {
    hide Step, Reaches;
    p := Handle(s.core.session.nextId, socket.token);
    var done := Step(s, ConnectCompletes(socket, true), invalidate);
    var judged := Step(done, RunDispatcher(true), invalidate);
    var adopted := Step(judged, RunIo(true), invalidate);
    var announced := Step(adopted, RunIo(true), invalidate);
    t := Step(announced, RunDispatcher(true), invalidate);
    ReachesSelf(s, invalidate);
    ReachesStep(s, s, ConnectCompletes(socket, true), invalidate);
    ReachesStep(s, done, RunDispatcher(true), invalidate);
    ReachesStep(s, judged, RunIo(true), invalidate);
    ReachesStep(s, adopted, RunIo(true), invalidate);
    ReachesStep(s, announced, RunDispatcher(true), invalidate);
    ConnectIsVerified(s, socket, invalidate);
    SocketIsAdopted(judged, socket, invalidate);
    PeerIsAnnounced(adopted, p, invalidate);
    NoteIsDelivered(announced, invalidate);
  }

  lemma ConnectIsVerified(s: Client, socket: Handle, invalidate: bool)
    requires Connecting(s, socket)
    ensures var t := Step(Step(s, ConnectCompletes(socket, true), invalidate), RunDispatcher(true), invalidate);
            && t.dispatcher == [] && t.io == [HandleConnected(socket, true)]
            && t.core.scope == s.core.scope && t.core.log == s.core.log
            && t.core.session == s.core.session.(connects := s.core.session.connects - {socket})
  {
  }

  lemma SocketIsAdopted(s: Client, socket: Handle, invalidate: bool)
    requires s.dispatcher == [] && s.io == [HandleConnected(socket, true)] && s.core.scope.IsCurrent(socket.token)
    requires s.core.session.connecting == Some(socket)
    ensures var t, p := Step(s, RunIo(true), invalidate), Handle(s.core.session.nextId, socket.token);
            && t.dispatcher == [] && t.io == [AnnouncePeer(p)]
            && t.core == s.core.(session := t.core.session) && t.core.session.connecting.None?
            && t.core.session.peer == Some(p) && p in t.core.session.live && p in t.core.session.peers
  {
  }

  lemma PeerIsAnnounced(s: Client, p: Handle, invalidate: bool)
    requires s.dispatcher == [] && s.io == [AnnouncePeer(p)] && s.core.session.peer == Some(p)
    ensures var t := Step(s, RunIo(true), invalidate);
            t == Client(s.core, [Notify(p.token, Deliver(UserNote.Connected(p)))], [])
  {
  }

  predicate Spoken(signal: Signal) {
    IsNote(signal) && !signal.Closing?
  }

  ghost predicate AllSpoken(given: seq<Signal>) {
    forall signal :: signal in given ==> Spoken(signal)
  }

  /** What the user is told of a connection that signals this. */
  ghost function Story(p: Handle, given: seq<Signal>): seq<Entry>
    requires AllSpoken(given)
  {
    assert forall i :: 0 <= i < |given| ==> Spoken(given[i]);
    seq(|given|, i requires 0 <= i < |given| => Entry(NoteOf(p, given[i]), p.token))
  }

  lemma SignalEnqueued(s: Client, p: Handle, signal: Signal, invalidate: bool)
    requires Connected(s, p) && Spoken(signal)
    ensures var t := Step(s, PeerEmits(p, signal), invalidate);
            && t.dispatcher == [SignalSlot(p, signal)] && t.io == []
            && t.core == s.core.(emitted := t.core.emitted)
  {
  }

  lemma CloseEnqueued(s: Client, p: Handle, invalidate: bool)
    requires Connected(s, p)
    ensures var t := Step(s, PeerCloseRuns(p), invalidate);
            && t.dispatcher == [SignalSlot(p, Closing)] && t.io == []
            && t.core.scope == s.core.scope && t.core.log == s.core.log
            && t.core.session == s.core.session.(live := s.core.session.live - {p})
  {
  }

  /** A connected peer can have whatever it signals told, in order. */
  lemma {:induction false} PeerCanSpeak(s: Client, p: Handle, given: seq<Signal>, invalidate: bool) returns (t: Client)
    requires Connected(s, p) && AllSpoken(given)
    ensures Reaches(s, t, invalidate) && Connected(t, p) && t.core.log == s.core.log + Story(p, given)
    decreases |given|
  {
    hide Reaches, Step;
    ReachesSelf(s, invalidate);
    if given == [] {
      t := s;
    } else {
      var rest, last := given[..|given| - 1], given[|given| - 1];
      var spoken := PeerCanSpeak(s, p, rest, invalidate);
      var emitted := Step(spoken, PeerEmits(p, last), invalidate);
      ReachesStep(s, spoken, PeerEmits(p, last), invalidate);
      SignalEnqueued(spoken, p, last, invalidate);
      t := SignalIsTold(emitted, p, last, invalidate);
      ReachesTwice(s, emitted, t, invalidate);
      assert Story(p, given) == Story(p, rest) + [Entry(NoteOf(p, last), p.token)];
    }
  }

  /** A connected client can have its connection closed by the other end, which it tells, and
      then waits for its next attempt. */
  lemma PeerCanClose(s: Client, p: Handle, invalidate: bool) returns (t: Client)
    requires Connected(s, p)
    ensures Reaches(s, t, invalidate) && Unconnected(t)
    ensures t.core.log == s.core.log + [Entry(Closed(p), p.token)]
  {
    hide Reaches, Step;
    ReachesSelf(s, invalidate);
    var closed := Step(s, PeerCloseRuns(p), invalidate);
    ReachesStep(s, s, PeerCloseRuns(p), invalidate);
    CloseEnqueued(s, p, invalidate);
    var told := SignalIsTold(closed, p, Closing, invalidate);
    ReachesTwice(s, closed, told, invalidate);
    t := Step(told, RunDispatcher(true), invalidate);
    ReachesStep(s, told, RunDispatcher(true), invalidate);
    DebounceArms(told, invalidate);
  }

  lemma DebounceArms(s: Client, invalidate: bool)
    requires s.dispatcher == [DebounceReconnect]
    ensures Step(s, RunDispatcher(true), invalidate) == Client(s.core.(armed := true), [], s.io)
  {
  }

  // -------------------------------------------------------------- the whole story

  /** From `s` to `t` the user was last told the whole story of a new connection. */
  ghost predicate Served(s: Client, t: Client, p: Handle, given: seq<Signal>)
    requires AllSpoken(given)
  {
    && p !in s.core.session.peers && Idle(t)
    && exists before ::
         && s.core.log <= before
         && t.core.log == before + ([Entry(UserNote.Connected(p), p.token)] + Story(p, given)
                                    + [Entry(Closed(p), p.token)])
  }

  ghost predicate CanServe(s: Client, invalidate: bool, given: seq<Signal>)
    requires AllSpoken(given)
  {
    exists p, t :: Reaches(s, t, invalidate) && Served(s, t, p, given)
  }

  /** From every reachable state, a new connection can still be made, announced, told of with
      whatever it signals, in order, and seen to its end. */
  lemma ClientCanAlwaysConnect(events: seq<Event>, invalidate: bool, given: seq<Signal>)
    requires AllSpoken(given)
    ensures CanServe(Run(InitialClient, events, invalidate), invalidate, given)
  {
    hide Run, ClientInvariant, CanServe, Spoken;
    ReachableClientInvariant(events, invalidate);
    ServedLater(Run(InitialClient, events, invalidate), invalidate, given);
  }

  lemma ServedLater(s: Client, invalidate: bool, given: seq<Signal>)
    requires ClientInvariant(s) && AllSpoken(given)
    ensures CanServe(s, invalidate, given)
  {
    hide Run, Step, ClientInvariant, Reaches, Connecting, Connected, Unconnected, Story, Spoken;
    var idle := SettledFrom(s, invalidate);
    var connecting, socket := AttemptFrom(idle, invalidate);
    ReachesTwice(s, idle, connecting, invalidate);
    var connected, p := ConnectingCanConnect(connecting, socket, invalidate);
    ReachesTwice(s, connecting, connected, invalidate);
    NewIsNew(s, connecting, invalidate, p);
    var spoken := PeerCanSpeak(connected, p, given, invalidate);
    ReachesTwice(s, connected, spoken, invalidate);
    var t := PeerCanClose(spoken, p, invalidate);
    ReachesTwice(s, spoken, t, invalidate);
    UnconnectedIsIdle(t);
    assert t.core.log == connecting.core.log + ([Entry(UserNote.Connected(p), p.token)] + Story(p, given)
                                                + [Entry(Closed(p), p.token)]);
    assert Served(s, t, p, given);
  }

  lemma UnconnectedIsIdle(s: Client)
    requires Unconnected(s)
    ensures Idle(s)
  {
  }

  lemma SettledFrom(s: Client, invalidate: bool) returns (t: Client)
    requires ClientInvariant(s)
    ensures Reaches(s, t, invalidate) && Idle(t) && ClientInvariant(t) && s.core.log <= t.core.log
  {
    hide Run, ClientInvariant, Reaches;
    HeadsRunDry(s, invalidate);
    var heads :| RunsHeads(s, heads, invalidate) && Idle(Run(s, heads, invalidate));
    t := Run(s, heads, invalidate);
    ReachesSelf(s, invalidate);
    ReachesRun(s, s, heads, invalidate);
    ReachedKeepsInvariant(s, t, invalidate);
    RunGrows(s, heads, invalidate);
  }

  /** From any idle state an attempt can be under way. */
  lemma AttemptFrom(s: Client, invalidate: bool) returns (t: Client, socket: Handle)
    requires ClientInvariant(s) && Idle(s)
    ensures Reaches(s, t, invalidate) && Connecting(t, socket) && s.core.log <= t.core.log
  {
    hide ClientInvariant, Reaches, Connecting, Connected, Unconnected;
    IdleClient(s);
    ReachesSelf(s, invalidate);
    if s.core.session.connecting.Some? && Connecting(s, s.core.session.connecting.value) {
      t, socket := s, s.core.session.connecting.value;
    } else if s.core.session.peer.Some? && Connected(s, s.core.session.peer.value) {
      var closed := PeerCanClose(s, s.core.session.peer.value, invalidate);
      t, socket := UnconnectedCanAttempt(closed, invalidate);
      ReachesTwice(s, closed, t, invalidate);
    } else {
      t, socket := UnconnectedCanAttempt(s, invalidate);
    }
  }

  // ----------------------------------------------------------------- what grows

  predicate Grows(c: Core, d: Core) {
    c.log <= d.log && c.session.peers <= d.session.peers && c.session.nextId <= d.session.nextId
  }

  lemma DispatcherGrows(c: Core, task: DispatcherTask, verified: bool)
    ensures Grows(c, RunDispatcherTask(c, task, verified).core)
  {
  }

  lemma IoGrows(c: Core, task: IoTask, endpointOk: bool)
    ensures Grows(c, RunIoTask(c, task, endpointOk).core)
  {
    hide CompleteAll, Complete, Add;
  }

  lemma EventGrows(c: Core, e: Event, invalidate: bool)
    ensures Grows(c, Happens(c, e, invalidate).core)
  {
    hide CompleteAll, TimerRuns, TimesOut;
  }

  lemma StepGrows(s: Client, e: Event, invalidate: bool)
    ensures Grows(s.core, Step(s, e, invalidate).core)
  {
    hide RunDispatcherTask, RunIoTask, Happens;
    if Enabled(s, e) {
      match e
      case RunDispatcher(verified) => DispatcherGrows(s.core, s.dispatcher[0], verified);
      case RunIo(endpointOk) => IoGrows(s.core, s.io[0], endpointOk);
      case _ => EventGrows(s.core, e, invalidate);
    }
  }

  lemma {:induction false} RunGrows(s: Client, more: seq<Event>, invalidate: bool)
    ensures Grows(s.core, Run(s, more, invalidate).core)
    decreases |more|
  {
    hide Step;
    if more != [] {
      StepGrows(s, more[0], invalidate);
      RunGrows(Step(s, more[0], invalidate), more[1..], invalidate);
    }
  }

  /** Ids are used in order, so that a new peer was never made before. */
  lemma NewIsNew(s: Client, t: Client, invalidate: bool, p: Handle)
    requires ClientInvariant(s) && Reaches(s, t, invalidate) && p.id == t.core.session.nextId
    ensures p !in s.core.session.peers
  {
    hide Run, SessionSound, TokensSound, PeersSound, CleanupsInOrder, RequestsOnPeer, ConnectionsAlive, NoPeerUnclosed,
         NeverStalled, OrderInvariant, FailuresInSession;
    var more :| Run(s, more, invalidate) == t;
    RunGrows(s, more, invalidate);
  }
}
