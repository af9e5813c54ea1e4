/** The health-check timer runs exactly while it should: on a current acceptor once its
    `bound` has been dealt with, and never on a stopped server. */
module ServerChecks {
  import opened Common
  import opened Queues
  import opened NotificationScope
  import opened Requests
  import opened ServerModel
  import opened ServerProofs
  import opened ServerProgress

  /** What a queued task does to the health-check timer itself. */
  function Switches(task: DispatcherTask): Option<bool> {
    if task.StartChecks? then Some(true) else if task.StopChecks? then Some(false) else None
  }

  /** What a queued notification of generation `g` will have done to it. */
  function Announces(task: DispatcherTask, g: Token): Option<bool> {
    if task == Notify(g, Deliver(Bound)) then Some(true) else if Retries(task, g) then Some(false) else None
  }

  function AnnouncesUnder(g: Token): DispatcherTask -> Option<bool> {
    task => Announces(task, g)
  }

  /** Whether the timer will run once the queued starts and stops have run. */
  predicate SwitchedOn(s: Server) {
    WillBeArmed(s.dispatcher, Switches, s.core.checking)
  }

  /** The same, after the starts and stops that queued notifications still enqueue. */
  predicate WillCheck(s: Server) {
    WillBeArmed(s.dispatcher, AnnouncesUnder(s.core.scope.generation), SwitchedOn(s))
  }

  ghost predicate ChecksSound(s: Server) {
    && (CurrentAcceptor(s.core) ==> WillCheck(s))
    && (!s.core.scope.running ==> !SwitchedOn(s))
  }

  ghost predicate NoSwitch(added: seq<DispatcherTask>) {
    forall task :: task in added ==> Switches(task) == None
  }

  ghost predicate NoAnnouncement(added: seq<DispatcherTask>, g: Token) {
    forall task :: task in added ==> Announces(task, g) == None
  }

  lemma DispatcherEffectSwitch(c: Core, task: DispatcherTask, verified: bool)
    requires !task.UserStop?
    ensures var f := RunDispatcherTask(c, task, verified);
            && f.core.scope.generation == c.scope.generation && (c.scope.running ==> f.core.scope.running)
            && f.core.checking == ArmedBy(Switches(task), c.checking)
            && NoAnnouncement(f.enqueued, c.scope.generation)
  {
    hide Judge, Settle;
  }

  /** A delivered notification switches the timer as it announces; nothing else but a
      stop enqueues a switch. */
  lemma DispatcherEffectChecks(c: Core, task: DispatcherTask, verified: bool)
    requires !task.UserStop?
    ensures var f := RunDispatcherTask(c, task, verified);
            var announced := Announces(task, c.scope.generation);
            if c.scope.running && announced.Some? then
              f.enqueued == if announced.value then [StartChecks] else [StopChecks, DebounceRetry]
            else NoSwitch(f.enqueued)
  {
    hide Judge, Settle;
  }

  lemma SwitchedBy(armed: bool)
    ensures WillBeArmed([StartChecks], Switches, armed)
    ensures !WillBeArmed([StopChecks, DebounceRetry], Switches, armed)
    ensures !WillBeArmed([CancelRetry, StopChecks], Switches, armed)
  {
    assert [StartChecks][1..] == [] && [DebounceRetry][1..] == [] && [StopChecks][1..] == [];
    assert [StopChecks, DebounceRetry][1..] == [DebounceRetry] && [CancelRetry, StopChecks][1..] == [StopChecks];
  }

  lemma StopKeepsChecks(s: Server, verified: bool, invalidate: bool)
    requires CoreTokens(s.core) && s.dispatcher != [] && s.dispatcher[0] == UserStop
    ensures ChecksSound(Step(s, RunDispatcher(verified), invalidate))
  {
    AppendArmed(s.dispatcher[1..], [CancelRetry, StopChecks], Switches, s.core.checking);
    SwitchedBy(WillBeArmed(s.dispatcher[1..], Switches, s.core.checking));
  }

  lemma DispatcherKeepsChecks(s: Server, verified: bool, invalidate: bool)
    requires ChecksSound(s) && CoreTokens(s.core) && s.dispatcher != [] && !s.dispatcher[0].UserStop?
    ensures ChecksSound(Step(s, RunDispatcher(verified), invalidate))
  {
    hide RunDispatcherTask, MembersAfterDispatcher, WillBeArmed, Announces, Switches;
    var q, g := s.dispatcher, s.core.scope.generation;
    var f := RunDispatcherTask(s.core, q[0], verified);
    DispatcherFrame(s.core, q[0], verified);
    DispatcherEffectSwitch(s.core, q[0], verified);
    DispatcherEffectChecks(s.core, q[0], verified);
    PopArmed(q, f.enqueued, Switches, s.core.checking);
    PopArmed(q, f.enqueued, AnnouncesUnder(g), SwitchedOn(s));
    LeavesArmed(f.enqueued, AnnouncesUnder(g), WillBeArmed(q[1..], AnnouncesUnder(g), SwitchedOn(s)));
    AppendArmed(q[1..], f.enqueued, AnnouncesUnder(g), SwitchedOn(Step(s, RunDispatcher(verified), invalidate)));
    LeavesArmed(f.enqueued, AnnouncesUnder(g),
                WillBeArmed(q[1..], AnnouncesUnder(g), SwitchedOn(Step(s, RunDispatcher(verified), invalidate))));
    SwitchedBy(SwitchedOn(s));
    if NoSwitch(f.enqueued) {
      LeavesArmed(f.enqueued, Switches, SwitchedOn(s));
    }
  }

  lemma PopArmed(
    q: seq<DispatcherTask>, added: seq<DispatcherTask>, effect: DispatcherTask -> Option<bool>, armed: bool
  )
    requires q != []
    ensures WillBeArmed(q[1..] + added, effect, ArmedBy(effect(q[0]), armed))
         == WillBeArmed(added, effect, WillBeArmed(q, effect, armed))
    ensures WillBeArmed(q, effect, armed) == WillBeArmed(q[1..], effect, ArmedBy(effect(q[0]), armed))
  {
    AppendArmed(q[1..], added, effect, ArmedBy(effect(q[0]), armed));
  }

  lemma IoEffectChecks(c: Core, task: IoTask, ok: bool, order: seq<PeerId>)
    ensures var f := RunIoTask(c, task, ok, order);
            && NoSwitch(f.enqueued)
            && (CurrentAcceptor(f.core) ==>
                  || f.enqueued == [Notify(c.scope.generation, Deliver(Bound))]
                  || (CurrentAcceptor(c) && NoAnnouncement(f.enqueued, c.scope.generation)))
  {
    hide CompleteAll, CompletePeer, CompleteOfPeer, Add, Expel, Emit, Enumerates;
  }

  lemma EventEffectSwitch(c: Core, e: Event, invalidate: bool)
    requires e.PeerEmits? || e.PeerDestroyed? ==> e.peer in c.members.known
    ensures NoSwitch(Happens(c, e, invalidate).enqueued)
  {
    hide CompletePeer, TimerRuns, TimesOut, Expel, Emit, Adopt, AcceptNext, DropProbe, ConnectFailed, AdoptProbe;
  }

  lemma EventEffectChecks(c: Core, e: Event, invalidate: bool)
    requires e.PeerEmits? || e.PeerDestroyed? ==> e.peer in c.members.known
    ensures var f := Happens(c, e, invalidate);
            CurrentAcceptor(f.core) ==> CurrentAcceptor(c) && NoAnnouncement(f.enqueued, c.scope.generation)
  {
    hide CompletePeer, TimerRuns, TimesOut, Expel, Emit, Adopt, DropProbe, ConnectFailed, AdoptProbe;
  }

  lemma OthersKeepChecks(s: Server, t: Server, added: seq<DispatcherTask>)
    requires ChecksSound(s) && t.dispatcher == s.dispatcher + added
    requires t.core.scope == s.core.scope && t.core.checking == s.core.checking && NoSwitch(added)
    requires CurrentAcceptor(t.core) ==>
               || added == [Notify(s.core.scope.generation, Deliver(Bound))]
               || (CurrentAcceptor(s.core) && NoAnnouncement(added, s.core.scope.generation))
    ensures ChecksSound(t)
  {
    hide Announces, Switches;
    var g := s.core.scope.generation;
    AppendArmed(s.dispatcher, added, Switches, s.core.checking);
    LeavesArmed(added, Switches, SwitchedOn(s));
    AppendArmed(s.dispatcher, added, AnnouncesUnder(g), SwitchedOn(s));
    BoundAnnounces(added, g, WillBeArmed(s.dispatcher, AnnouncesUnder(g), SwitchedOn(s)));
    if NoAnnouncement(added, g) {
      LeavesArmed(added, AnnouncesUnder(g), WillBeArmed(s.dispatcher, AnnouncesUnder(g), SwitchedOn(s)));
    }
  }

  lemma BoundAnnounces(added: seq<DispatcherTask>, g: Token, armed: bool)
    ensures added == [Notify(g, Deliver(Bound))] ==> WillBeArmed(added, AnnouncesUnder(g), armed)
  {
    if added == [Notify(g, Deliver(Bound))] {
      assert added[1..] == [];
    }
  }

  lemma StepKeepsChecks(s: Server, e: Event, invalidate: bool)
    requires ChecksSound(s) && CoreTokens(s.core) && Enabled(s, e)
    ensures ChecksSound(Step(s, e, invalidate))
  {
    hide RunDispatcherTask, RunIoTask, Happens, MayEmit, Enumerates, MembersAfterIo, MembersAfterEvent,
         ListeningAfterIo, ListeningAfterEvent, ChecksSound, CurrentAcceptor, NoSwitch, NoAnnouncement, CoreTokens;
    match e
    case RunDispatcher(verified) =>
      if s.dispatcher[0].UserStop? {
        StopKeepsChecks(s, verified, invalidate);
      } else {
        DispatcherKeepsChecks(s, verified, invalidate);
      }
    case RunIo(ok, order) =>
      IoFrame(s.core, s.io[0], ok, order);
      IoEffectChecks(s.core, s.io[0], ok, order);
      OthersKeepChecks(s, Step(s, e, invalidate), RunIoTask(s.core, s.io[0], ok, order).enqueued);
    case _ =>
      EventFrame(s.core, e, invalidate);
      EventEffectSwitch(s.core, e, invalidate);
      EventEffectChecks(s.core, e, invalidate);
      OthersKeepChecks(s, Step(s, e, invalidate), EffectOf(s, e, invalidate).enqueued);
  }
}
