/** The server can always serve: from every reachable state some continuation accepts a new
    peer and tells its user everything about it, from its connection to its end. */
module ServerService {
  import opened Common
  import opened Queues
  import opened NotificationScope
  import opened Requests
  import opened ServerModel
  import opened ServerProofs
  import opened ServerProgress
  import opened ServerChecks
  import opened ServerProbes
  import opened ServerPeers
  import opened ServerLifecycle
  import opened ServerNarrative
  import opened ServerDelivery
  import opened ServerTheorems
  import opened ServerSettles

  /** `t` is a continuation of `s`. */
  ghost predicate Reaches(s: Server, t: Server, invalidate: bool) {
    exists events :: Run(s, events, invalidate) == t
  }

  lemma ReachesSelf(s: Server, invalidate: bool)
    ensures Reaches(s, s, invalidate)
  {
    assert Run(s, [], invalidate) == s;
  }

  lemma ReachesStep(s: Server, t: Server, e: Event, invalidate: bool)
    requires Reaches(s, t, invalidate)
    ensures Reaches(s, Step(t, e, invalidate), invalidate)
  {
    hide Run, Step;
    RunOne(t, e, invalidate);
    ReachesRun(s, t, [e], invalidate);
  }

  lemma ReachesRun(s: Server, t: Server, more: seq<Event>, invalidate: bool)
    requires Reaches(s, t, invalidate)
    ensures Reaches(s, Run(t, more, invalidate), invalidate)
  {
    hide Run;
    var events :| Run(s, events, invalidate) == t;
    RunSplit(s, events, more, invalidate);
    assert Run(s, events + more, invalidate) == Run(t, more, invalidate);
  }

  lemma ReachedKeepsInvariant(s: Server, t: Server, invalidate: bool)
    requires ServerInvariant(s) && Reaches(s, t, invalidate)
    ensures ServerInvariant(t)
  {
    hide Run, ServerInvariant;
    var events :| Run(s, events, invalidate) == t;
    EveryRunKeepsServerInvariant(s, events, invalidate);
  }

  // ---------------------------------------------------------------- accepting

  predicate Accepting(s: Server) {
    && s.core.scope.running && s.core.listening.acceptor.Some?
    && Accept(s.core.listening.acceptor.value, s.core.scope.generation) in s.core.listening.accepts
    && s.io == [] && (forall task :: task in s.dispatcher ==> !task.UserStart? && !task.UserStop?)
  }

  lemma IdleServer(s: Server)
    requires ServerInvariant(s) && Idle(s)
    ensures !s.core.scope.running ==> s.core.listening.acceptor.None?
    ensures s.core.scope.running ==> s.core.retryArmed || s.core.listening.acceptor.Some?
    ensures s.core.listening.acceptor.Some? ==> Accepting(s)
  {
    hide EmissionsDisciplined, TasksKnown, MembersSound, ChecksSound, BoundAnnounced, ProbingSound, NoProbeUnclosed,
         PeersInvariant;
  }

  /** An idle server can be made to accept. */
  lemma IdleCanAccept(s: Server, invalidate: bool) returns (t: Server)
    requires ServerInvariant(s) && Idle(s)
    ensures Reaches(s, t, invalidate) && Accepting(t)
  {
    hide ServerInvariant, Reaches, Step, Accepting, Enabled;
    IdleServer(s);
    ReachesSelf(s, invalidate);
    if s.core.listening.acceptor.Some? {
      t := s;
    } else {
      var asked: Server;
      if s.core.scope.running {
        asked := Step(s, RetryTimer, invalidate);
        ReachesStep(s, s, RetryTimer, invalidate);
        RetryAsks(s, invalidate);
      } else {
        var called := Step(s, CallStart, invalidate);
        asked := Step(called, RunDispatcher(true), invalidate);
        ReachesStep(s, s, CallStart, invalidate);
        ReachesStep(s, called, RunDispatcher(true), invalidate);
        StartAsks(s, invalidate);
      }
      t := Step(asked, RunIo(true, []), invalidate);
      ReachesStep(s, asked, RunIo(true, []), invalidate);
      BindAccepts(asked, invalidate);
    }
  }

  predicate AskedToBind(s: Server) {
    && s.core.scope.running && s.core.listening.acceptor.None?
    && s.dispatcher == [] && s.io == [BindTask(s.core.scope.generation)]
  }

  lemma RetryAsks(s: Server, invalidate: bool)
    requires Idle(s) && s.core.scope.running && s.core.retryArmed && s.core.listening.acceptor.None?
    ensures AskedToBind(Step(s, RetryTimer, invalidate))
  {
  }

  lemma StartAsks(s: Server, invalidate: bool)
    requires Idle(s) && s.core.listening.acceptor.None?
    ensures AskedToBind(Step(Step(s, CallStart, invalidate), RunDispatcher(true), invalidate))
  {
  }

  lemma BindAccepts(s: Server, invalidate: bool)
    requires AskedToBind(s)
    ensures Accepting(Step(s, RunIo(true, []), invalidate))
  {
  }

  // ---------------------------------------------------------------- a new peer

  /** What a peer may tell the user. */
  predicate Spoken(signal: Signal) {
    signal.Data? || signal.Request? || signal.Error?
  }

  ghost predicate AllSpoken(given: seq<Signal>) {
    forall signal :: signal in given ==> Spoken(signal)
  }

  /** Peer `p` of the running session has signalled just this, and nothing queued stops the
      server or closes the peer. */
  ghost predicate Undisturbed(s: Server, p: PeerId, emitted: seq<Signal>) {
    && Regular(s.core, p) && !s.core.members.known[p].released && s.core.members.known[p].emitted == emitted
    && (forall task :: task in s.dispatcher ==> !task.UserStart? && !task.UserStop?)
    && StopTask !in s.io && ClosePeerRequest(p) !in s.io
  }

  lemma AcceptedIsUndisturbed(s: Server, invalidate: bool)
    requires Accepting(s)
    ensures var op := Accept(s.core.listening.acceptor.value, s.core.scope.generation);
            var t, p := Step(s, AcceptCompletes(op, Accepted), invalidate), s.core.members.nextPeerId + 1;
            && Undisturbed(t, p, []) && p in t.core.members.peers
  {
  }

  lemma EmissionStays(s: Server, invalidate: bool, p: PeerId, emitted: seq<Signal>, signal: Signal)
    requires Undisturbed(s, p, emitted)
    requires if signal.Ready? then Ready !in emitted else Spoken(signal) && Ready in emitted
    ensures Undisturbed(Step(s, PeerEmits(p, signal), invalidate), p, emitted + [signal])
  {
  }

  lemma CloseStays(s: Server, invalidate: bool, p: PeerId, emitted: seq<Signal>)
    requires Undisturbed(s, p, emitted) && Closing !in emitted
    ensures Undisturbed(Step(s, PeerCloseRuns(p), invalidate), p, emitted + [Closing])
  {
  }

  /** A ready peer can signal whatever it is given. */
  lemma {:induction false} PeerCanSpeak(
    s: Server, invalidate: bool, p: PeerId, emitted: seq<Signal>, given: seq<Signal>
  ) returns (t: Server)
    requires Undisturbed(s, p, emitted) && Ready in emitted && AllSpoken(given)
    ensures Reaches(s, t, invalidate) && Undisturbed(t, p, emitted + given)
    decreases |given|
  {
    hide Undisturbed, Reaches, Step;
    ReachesSelf(s, invalidate);
    if given == [] {
      assert emitted + given == emitted;
      t := s;
    } else {
      var rest, last := given[..|given| - 1], given[|given| - 1];
      var spoken := PeerCanSpeak(s, invalidate, p, emitted, rest);
      assert Spoken(last) && Ready in emitted + rest;
      EmissionStays(spoken, invalidate, p, emitted + rest, last);
      t := Step(spoken, PeerEmits(p, last), invalidate);
      ReachesStep(s, spoken, PeerEmits(p, last), invalidate);
      assert emitted + rest + [last] == emitted + given;
    }
  }

  // ------------------------------------------------------------ running it dry

  lemma DispatcherDisturbsNothing(c: Core, task: DispatcherTask, p: PeerId)
    requires Regular(c, p) && !task.UserStart? && !task.UserStop?
    ensures var f := RunDispatcherTask(c, task, true);
            && (forall t :: t in f.enqueued ==> !t.UserStart? && !t.UserStop?)
            && StopTask !in f.posted && ClosePeerRequest(p) !in f.posted
            && Regular(f.core, p) && f.core.members.known[p].emitted == c.members.known[p].emitted
            && f.core.members.known[p].released == c.members.known[p].released
  {
    hide RunDispatcherTask, MembersAfterDispatcher;
    DispatcherFrame(c, task, true);
    DispatcherQueuesNothingBad(c, task, p);
    DispatcherRefusesNobody(c, task, p);
  }

  lemma DispatcherQueuesNothingBad(c: Core, task: DispatcherTask, p: PeerId)
    requires !task.UserStart? && !task.UserStop?
    ensures var f := RunDispatcherTask(c, task, true);
            && (forall t :: t in f.enqueued ==> !t.UserStart? && !t.UserStop?)
            && StopTask !in f.posted && ClosePeerRequest(p) !in f.posted
  {
    hide Judge, Settle;
  }

  lemma DispatcherRefusesNobody(c: Core, task: DispatcherTask, p: PeerId)
    requires p in c.members.known && c.members.known[p].verdict != Some(false)
    ensures var n := MembersAfterDispatcher(c, task, true);
            && p in n.known && n.known[p].verdict != Some(false) && n.known[p].removed == c.members.known[p].removed
            && n.known[p].token == c.members.known[p].token && n.known[p].emitted == c.members.known[p].emitted
            && n.known[p].released == c.members.known[p].released
  {
  }

  lemma IoDisturbsNothing(c: Core, task: IoTask, ok: bool, order: seq<PeerId>, p: PeerId)
    requires Regular(c, p) && task != StopTask && task != ClosePeerRequest(p) && Closing in c.members.known[p].emitted
    ensures var f := RunIoTask(c, task, ok, order);
            && (forall t :: t in f.enqueued ==> !t.UserStart? && !t.UserStop?)
            && StopTask !in f.posted && ClosePeerRequest(p) !in f.posted
            && Regular(f.core, p) && f.core.members.known[p].emitted == c.members.known[p].emitted
            && f.core.members.known[p].released == c.members.known[p].released
  {
    hide CompletePeer, CompleteOfPeer, Add, Listen, Enumerates;
  }

  lemma HeadDisturbsNothing(s: Server, e: Event, invalidate: bool, p: PeerId, emitted: seq<Signal>)
    requires Undisturbed(s, p, emitted) && Closing in emitted && Enabled(s, e)
    requires RunsHead(e) && (e.RunDispatcher? ==> e.verified)
    ensures Undisturbed(Step(s, e, invalidate), p, emitted)
  {
    hide RunDispatcherTask, RunIoTask, Enumerates, Regular;
    StepQueues(s, e, invalidate);
    match e
    case RunDispatcher(verified) => DispatcherDisturbsNothing(s.core, s.dispatcher[0], p);
    case RunIo(ok, order) => IoDisturbsNothing(s.core, s.io[0], ok, order, p);
  }

  /** The queues can run dry with the peer undisturbed, the user accepting every peer. */
  lemma {:induction false} UndisturbedRunsDry(s: Server, invalidate: bool, p: PeerId, emitted: seq<Signal>)
    returns (t: Server)
    requires Undisturbed(s, p, emitted) && Closing in emitted
    ensures Reaches(s, t, invalidate) && Undisturbed(t, p, emitted) && Idle(t)
    decreases Work(s)
  {
    hide Undisturbed, Reaches, Step, Work, Enabled;
    ReachesSelf(s, invalidate);
    if Idle(s) {
      t := s;
    } else {
      var e := SomeHead(s);
      HeadDisturbsNothing(s, e, invalidate, p, emitted);
      HeadWorks(s, e, invalidate);
      var u := Step(s, e, invalidate);
      t := UndisturbedRunsDry(u, invalidate, p, emitted);
      ReachesStep(s, s, e, invalidate);
      ReachesTwice(s, u, t, invalidate);
    }
  }

  lemma ReachesTwice(s: Server, t: Server, u: Server, invalidate: bool)
    requires Reaches(s, t, invalidate) && Reaches(t, u, invalidate)
    ensures Reaches(s, u, invalidate)
  {
    hide Run;
    var more :| Run(t, more, invalidate) == u;
    ReachesRun(s, t, more, invalidate);
  }

  // -------------------------------------------------------------- the whole story

  /** What the user hears of a peer that signals this. */
  function NotesOfSignals(p: PeerId, given: seq<Signal>): seq<UserNote> {
    seq(|given|, i requires 0 <= i < |given| => PeerSignalled(p, given[i]))
  }

  lemma {:induction false} StoryOfReady(p: PeerId, given: seq<Signal>)
    requires AllSpoken(given)
    ensures Narrative(p, [Ready] + given) == [PeerConnected(p)] + NotesOfSignals(p, given)
    ensures ExposureAfter([Ready] + given) == Shown
    decreases |given|
  {
    hide Narrative, ExposureAfter;
    if given == [] {
      NarrativeAppend(p, [], Ready);
      NothingNarrated(p);
      assert [] + [Ready] == [Ready] + given;
    } else {
      var rest, last := given[..|given| - 1], given[|given| - 1];
      StoryOfReady(p, rest);
      assert Spoken(last);
      NarrativeAppend(p, [Ready] + rest, last);
      assert [Ready] + rest + [last] == [Ready] + given;
      assert NotesOfSignals(p, given) == NotesOfSignals(p, rest) + [PeerSignalled(p, last)];
    }
  }

  lemma NothingNarrated(p: PeerId)
    ensures Narrative(p, []) == [] && ExposureAfter([]) == Hidden
  {
  }

  lemma WholeStory(p: PeerId, given: seq<Signal>)
    requires AllSpoken(given)
    ensures Narrative(p, [Ready] + given + [Closing])
         == [PeerConnected(p)] + NotesOfSignals(p, given) + [PeerClosed(p)]
  {
    hide Narrative, ExposureAfter;
    StoryOfReady(p, given);
    NarrativeAppend(p, [Ready] + given, Closing);
  }

  lemma EverythingHandled(s: Server, p: PeerId, given: seq<Signal>)
    requires ServerInvariant(s) && Idle(s) && Undisturbed(s, p, [Ready] + given + [Closing]) && AllSpoken(given)
    ensures NotesOf(s.core.log, p) == [PeerConnected(p)] + NotesOfSignals(p, given) + [PeerClosed(p)]
  {
    hide ServerInvariant, NotesOf, Narrative, Disciplined;
    HandledAll(s, p);
    var handled, emitted := s.core.members.known[p].handled, [Ready] + given + [Closing];
    if Closing in handled {
      PrefixWithLast(handled, [Ready] + given, Closing);
    }
    WholeStory(p, given);
  }

  lemma PrefixWithLast<T>(prefix: seq<T>, xs: seq<T>, last: T)
    requires prefix <= xs + [last] && last !in xs && last in prefix
    ensures prefix == xs + [last]
  {
    var i :| 0 <= i < |prefix| && prefix[i] == last;
    assert (xs + [last])[i] == last;
  }

  /** From `s` to `t` the user heard the whole story of a new peer. */
  ghost predicate Served(s: Server, t: Server, p: PeerId, given: seq<Signal>) {
    && p !in s.core.members.known && Idle(t)
    && NotesOf(t.core.log, p) == [PeerConnected(p)] + NotesOfSignals(p, given) + [PeerClosed(p)]
  }

  ghost predicate CanServe(s: Server, invalidate: bool, given: seq<Signal>) {
    exists p, t :: Reaches(s, t, invalidate) && Served(s, t, p, given)
  }

  /** From every reachable state, a new peer can still be accepted, handed over with whatever
      it signals, in order, and seen to its end; nothing before can have made that impossible. */
  lemma ServerCanAlwaysServe(events: seq<Event>, invalidate: bool, given: seq<Signal>)
    requires AllSpoken(given)
    ensures CanServe(Run(InitialServer, events, invalidate), invalidate, given)
  {
    hide Run, ServerInvariant, CanServe;
    ReachableServerInvariant(events, invalidate);
    ServedLater(Run(InitialServer, events, invalidate), invalidate, given);
  }

  lemma ServedLater(s: Server, invalidate: bool, given: seq<Signal>)
    requires ServerInvariant(s) && AllSpoken(given)
    ensures CanServe(s, invalidate, given)
  {
    hide Run, Step, ServerInvariant, Reaches, Undisturbed, Accepting, NotesOf;
    HeadsRunDry(s, invalidate);
    var heads :| RunsHeads(s, heads, invalidate) && Idle(Run(s, heads, invalidate));
    var idle := Run(s, heads, invalidate);
    ReachesSelf(s, invalidate);
    ReachesRun(s, s, heads, invalidate);
    ReachedKeepsInvariant(s, idle, invalidate);
    var accepting := IdleCanAccept(idle, invalidate);
    ReachesTwice(s, idle, accepting, invalidate);
    var p, t := ServedFrom(accepting, invalidate, given);
    ReachesTwice(s, accepting, t, invalidate);
    ReachedKeepsInvariant(s, t, invalidate);
    EverythingHandled(t, p, given);
    NewIsNew(s, accepting, invalidate, p);
    assert Served(s, t, p, given);
  }

  /** From an accepting server on. */
  lemma ServedFrom(s: Server, invalidate: bool, given: seq<Signal>) returns (p: PeerId, t: Server)
    requires Accepting(s) && AllSpoken(given)
    ensures p == s.core.members.nextPeerId + 1
    ensures Reaches(s, t, invalidate) && Idle(t) && Undisturbed(t, p, [Ready] + given + [Closing])
  {
    hide Step, Reaches, Undisturbed;
    p := s.core.members.nextPeerId + 1;
    var op := Accept(s.core.listening.acceptor.value, s.core.scope.generation);
    var accepted := Step(s, AcceptCompletes(op, Accepted), invalidate);
    ReachesSelf(s, invalidate);
    ReachesStep(s, s, AcceptCompletes(op, Accepted), invalidate);
    AcceptedIsUndisturbed(s, invalidate);
    var ready := Step(accepted, PeerEmits(p, Ready), invalidate);
    ReachesStep(s, accepted, PeerEmits(p, Ready), invalidate);
    EmissionStays(accepted, invalidate, p, [], Ready);
    assert [] + [Ready] == [Ready];
    var spoken := PeerCanSpeak(ready, invalidate, p, [Ready], given);
    ReachesTwice(s, ready, spoken, invalidate);
    assert Closing !in [Ready] + given;
    var closed := Step(spoken, PeerCloseRuns(p), invalidate);
    ReachesStep(s, spoken, PeerCloseRuns(p), invalidate);
    CloseStays(spoken, invalidate, p, [Ready] + given);
    t := UndisturbedRunsDry(closed, invalidate, p, [Ready] + given + [Closing]);
    ReachesTwice(s, closed, t, invalidate);
  }

  /** Peer ids are used in order, so that a new one was never known before. */
  lemma NewIsNew(s: Server, t: Server, invalidate: bool, p: PeerId)
    requires ServerInvariant(s) && Reaches(s, t, invalidate) && p == t.core.members.nextPeerId + 1
    ensures p !in s.core.members.known
  {
    hide ServerInvariant, Run;
    ReachedKeepsInvariant(s, t, invalidate);
    ServerMembers(t);
    if p in s.core.members.known {
      var more :| Run(s, more, invalidate) == t;
      RunContinues(s, more, invalidate, p);
      assert false;
    }
  }
}
