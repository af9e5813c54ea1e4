/** What the user is told about one peer: `peer_connected` once, after a positive
    verdict, `peer_closed` at most once and last, everything else in between, and
    all of it within the session the peer was accepted under. */
module ServerLifecycle {
  import opened Common
  import opened Queues
  import opened NotificationScope
  import opened Requests
  import opened ServerModel
  import opened ServerProofs

  // ------------------------------------------------------------------- notes

  function NotesOf(log: seq<Entry>, p: PeerId): seq<UserNote>
    decreases |log|
  {
    if log == [] then [] else NotesOf(log[..|log| - 1], p) + Mentioned(log[|log| - 1].note, p)
  }

  function Mentioned(note: UserNote, p: PeerId): seq<UserNote> {
    if note.About(p) then [note] else []
  }

  lemma NotesOfAppend(log: seq<Entry>, entry: Entry, p: PeerId)
    ensures NotesOf(log + [entry], p) == NotesOf(log, p) + Mentioned(entry.note, p)
    ensures !entry.note.About(p) ==> NotesOf(log + [entry], p) == NotesOf(log, p)
  {
    assert (log + [entry])[..|log|] == log;
  }

  predicate Connected(notes: seq<UserNote>, p: PeerId) {
    && notes != []
    && notes[0] == PeerConnected(p)
    && (forall i :: 1 <= i < |notes| ==> notes[i].PeerSignalled?)
  }

  /** Nothing; or `peer_connected` and then only data, requests and errors; or these
      and a final `peer_closed`. */
  predicate Lifecycle(notes: seq<UserNote>, p: PeerId) {
    || notes == []
    || Connected(notes, p)
    || (notes[|notes| - 1] == PeerClosed(p) && Connected(notes[..|notes| - 1], p))
  }

  // ------------------------------------------------------------------ stages

  predicate BecameReady(m: Members, p: PeerId) {
    p in m.known && Ready in m.known[p].emitted
  }

  /** Where a peer is between its user's ignorance and its end. */
  ghost predicate PeerStage(c: Core, p: PeerId) {
    var notes := NotesOf(c.log, p);
    && Lifecycle(notes, p)
    && (p in c.members.exposed ==> Connected(notes, p))
    && (notes != [] ==> BecameReady(c.members, p) && c.members.known[p].verdict == Some(true))
    && (p in c.members.known && !BecameReady(c.members, p) ==> c.members.known[p].verdict == None)
  }

  /** The peer whose ready signal a task carries towards its verification. */
  function TicketFor(task: DispatcherTask): Option<PeerId> {
    if task.PeerSlot? && task.signal.Ready? then Some(task.peer)
    else if task.Notify? && task.notification.Verify? then Some(task.notification.peer)
    else None
  }

  /** A ready signal on its way belongs to a peer the user knows nothing of yet. */
  predicate TicketSound(c: Core, task: DispatcherTask) {
    TicketFor(task).Some? ==>
      var p := TicketFor(task).value;
      && BecameReady(c.members, p) && NotesOf(c.log, p) == [] && c.members.known[p].verdict == None
      && (task.Notify? ==> task.token == c.members.known[p].token)
  }

  ghost predicate TicketsUnique(q: seq<DispatcherTask>) {
    forall i, j :: 0 <= i < j < |q| && TicketFor(q[i]).Some? ==> TicketFor(q[j]) != TicketFor(q[i])
  }

  ghost predicate ExposedCurrent(c: Core) {
    forall p :: p in c.members.exposed ==> p in c.members.known && c.scope.IsCurrent(c.members.known[p].token)
  }

  predicate EntryInSession(m: Members, entry: Entry) {
    !entry.note.OfSession? ==> entry.note.peer in m.known && entry.token == m.known[entry.note.peer].token
  }

  ghost predicate LifecycleInvariant(s: Server) {
    && (forall p :: PeerStage(s.core, p))
    && (forall task :: task in s.dispatcher ==> TicketSound(s.core, task))
    && TicketsUnique(s.dispatcher)
    && ExposedCurrent(s.core)
    && (forall entry :: entry in s.core.log ==> EntryInSession(s.core.members, entry))
  }

  // ------------------------------------------------------------ queue algebra

  ghost predicate NoTickets(q: seq<DispatcherTask>) {
    forall task :: task in q ==> TicketFor(task) == None
  }

  ghost predicate NewTicket(q: seq<DispatcherTask>, task: DispatcherTask) {
    forall other :: other in q ==> TicketFor(other) != TicketFor(task)
  }

  lemma AppendTickets(q: seq<DispatcherTask>, added: seq<DispatcherTask>)
    requires TicketsUnique(q)
    requires NoTickets(added) || (|added| == 1 && NewTicket(q, added[0]))
    ensures TicketsUnique(q + added)
  {
    var t := q + added;
    forall i, j | 0 <= i < j < |t| && TicketFor(t[i]).Some?
      ensures TicketFor(t[j]) != TicketFor(t[i])
    {
      if j >= |q| {
        assert t[j] in added;
        if !NoTickets(added) {
          assert t[i] in q;
        }
      }
    }
  }

  lemma TailTickets(q: seq<DispatcherTask>)
    requires TicketsUnique(q) && q != []
    ensures TicketsUnique(q[1..])
    ensures TicketFor(q[0]).Some? ==> NewTicket(q[1..], q[0])
  {
  }

  // --------------------------------------------------------- dispatcher steps

  /** What a dispatcher task tells the user. */
  function ToldBy(c: Core, task: DispatcherTask, verified: bool): Option<UserNote> {
    match task
    case Notify(token, Deliver(note)) => if c.scope.IsCurrent(token) then Some(OfSession(note)) else None
    case Notify(token, Verify(p)) => if c.scope.IsCurrent(token) && verified then Some(PeerConnected(p)) else None
    case DeliverSignal(p, signal) =>
      if p !in c.members.exposed then None
      else Some(if signal.Closing? then PeerClosed(p) else PeerSignalled(p, signal))
    case _ => None
  }

  function Logged(c: Core, task: DispatcherTask, verified: bool): seq<Entry> {
    var told := ToldBy(c, task, verified);
    if told.Some? then [Entry(told.value, c.scope.generation)] else []
  }

  lemma DispatcherEffectLog(c: Core, task: DispatcherTask, verified: bool)
    ensures var log := RunDispatcherTask(c, task, verified).core.log;
            log == c.log + Logged(c, task, verified) && (ToldBy(c, task, verified).None? ==> log == c.log)
  {
    hide Judge, Settle;
  }

  lemma DispatcherEffectTickets(c: Core, task: DispatcherTask, verified: bool)
    ensures var f := RunDispatcherTask(c, task, verified);
            || NoTickets(f.enqueued)
            || (task.PeerSlot? && TicketFor(task).Some? && !Released(c.members, task.peer)
                && f.enqueued == [Notify(c.members.known[task.peer].token, Verify(task.peer))])
  {
    hide Judge, Settle;
  }

  /** Peers keep what they had; only verification gives a verdict and an exposure. */
  lemma DispatcherMembersStage(c: Core, task: DispatcherTask, verified: bool, p: PeerId)
    requires MembersSound(c.members)
    ensures var n := MembersAfterDispatcher(c, task, verified);
            var judged := task.Notify? && task.notification == Verify(p) && c.scope.IsCurrent(task.token);
            && (p in n.known <==> p in c.members.known)
            && (p in c.members.known ==>
                  && n.known[p].emitted == c.members.known[p].emitted && n.known[p].token == c.members.known[p].token
                  && n.known[p].verdict == if judged then Some(verified) else c.members.known[p].verdict)
            && (p in n.exposed ==>
                  || (judged && verified)
                  || (p in c.members.exposed && !task.UserStop? && task != DeliverSignal(p, Closing)))
  {
  }

  lemma AppendedLifecycle(notes: seq<UserNote>, note: UserNote, p: PeerId)
    ensures notes == [] && note == PeerConnected(p) ==> Connected(notes + [note], p) && Lifecycle(notes + [note], p)
    ensures Connected(notes, p) && note.PeerSignalled? ==> Connected(notes + [note], p) && Lifecycle(notes + [note], p)
    ensures Connected(notes, p) && note == PeerClosed(p) ==> Lifecycle(notes + [note], p)
    ensures Connected(notes, p) ==> Lifecycle(notes, p) && notes != []
  {
    assert (notes + [note])[..|notes|] == notes;
  }

  lemma DispatcherKeepsStage(s: Server, verified: bool, invalidate: bool, p: PeerId)
    requires s.dispatcher != [] && PeerStage(s.core, p) && TicketSound(s.core, s.dispatcher[0])
    requires MembersSound(s.core.members)
    ensures var t := Step(s, RunDispatcher(verified), invalidate);
            && PeerStage(t.core, p)
            && (NotesOf(s.core.log, p) == [] && TicketFor(s.dispatcher[0]) != Some(p) ==> NotesOf(t.core.log, p) == [])
  {
    hide RunDispatcherTask, MembersAfterDispatcher, Lifecycle, Connected, NotesOf, MembersSound;
    var c, task := s.core, s.dispatcher[0];
    var told := ToldBy(c, task, verified);
    DispatcherFrame(c, task, verified);
    DispatcherEffectLog(c, task, verified);
    DispatcherMembersStage(c, task, verified, p);
    if told.Some? {
      NotesOfAppend(c.log, Entry(told.value, c.scope.generation), p);
      AppendedLifecycle(NotesOf(c.log, p), told.value, p);
    }
  }

  lemma DispatcherKeepsExposed(s: Server, verified: bool, invalidate: bool)
    requires s.dispatcher != [] && ExposedCurrent(s.core) && TicketSound(s.core, s.dispatcher[0])
    requires MembersSound(s.core.members)
    requires forall entry :: entry in s.core.log ==> EntryInSession(s.core.members, entry)
    ensures var t := Step(s, RunDispatcher(verified), invalidate);
            ExposedCurrent(t.core) && forall entry :: entry in t.core.log ==> EntryInSession(t.core.members, entry)
  {
    hide RunDispatcherTask, MembersAfterDispatcher, NotesOf, MembersSound;
    var c, task := s.core, s.dispatcher[0];
    var t := Step(s, RunDispatcher(verified), invalidate);
    DispatcherFrame(c, task, verified);
    DispatcherEffectLog(c, task, verified);
    forall p
      ensures p in t.core.members.exposed ==>
        p in t.core.members.known && t.core.scope.IsCurrent(t.core.members.known[p].token)
      ensures p in c.members.known ==>
        p in t.core.members.known && t.core.members.known[p].token == c.members.known[p].token
    {
      DispatcherMembersStage(c, task, verified, p);
    }
  }

  lemma DispatcherKeepsLifecycle(s: Server, verified: bool, invalidate: bool)
    requires LifecycleInvariant(s) && MembersSound(s.core.members) && s.dispatcher != []
    ensures LifecycleInvariant(Step(s, RunDispatcher(verified), invalidate))
  {
    hide RunDispatcherTask, MembersAfterDispatcher, PeerStage, NotesOf, MembersSound, ExposedCurrent, EntryInSession,
         TicketsUnique;
    var t := Step(s, RunDispatcher(verified), invalidate);
    var f := RunDispatcherTask(s.core, s.dispatcher[0], verified);
    assert s.dispatcher[0] in s.dispatcher;
    TailTickets(s.dispatcher);
    OldOrNew(s.dispatcher, []);
    DispatcherEffectTickets(s.core, s.dispatcher[0], verified);
    AppendTickets(s.dispatcher[1..], f.enqueued);
    DispatcherKeepsExposed(s, verified, invalidate);
    forall p
      ensures PeerStage(t.core, p)
    {
      DispatcherKeepsStage(s, verified, invalidate, p);
    }
    forall task | task in t.dispatcher
      ensures TicketSound(t.core, task)
    {
      OldOrNew(s.dispatcher[1..], f.enqueued);
      DispatcherKeepsTicket(s, verified, invalidate, task);
    }
  }

  lemma DispatcherKeepsTicket(s: Server, verified: bool, invalidate: bool, task: DispatcherTask)
    requires LifecycleInvariant(s) && MembersSound(s.core.members) && s.dispatcher != []
    requires task in s.dispatcher[1..] || task in RunDispatcherTask(s.core, s.dispatcher[0], verified).enqueued
    ensures TicketSound(Step(s, RunDispatcher(verified), invalidate).core, task)
  {
    hide RunDispatcherTask, MembersAfterDispatcher, PeerStage, NotesOf, MembersSound, ExposedCurrent, EntryInSession,
         TicketsUnique;
    assert s.dispatcher[0] in s.dispatcher;
    TailTickets(s.dispatcher);
    OldOrNew(s.dispatcher, []);
    DispatcherFrame(s.core, s.dispatcher[0], verified);
    DispatcherEffectTickets(s.core, s.dispatcher[0], verified);
    if TicketFor(task).Some? {
      var p := TicketFor(task).value;
      DispatcherKeepsStage(s, verified, invalidate, p);
      DispatcherMembersStage(s.core, s.dispatcher[0], verified, p);
      if task !in s.dispatcher[1..] {
        SlotTellsNothing(s.core, s.dispatcher[0], verified);
      }
    }
  }

  lemma SlotTellsNothing(c: Core, task: DispatcherTask, verified: bool)
    requires task.PeerSlot?
    ensures RunDispatcherTask(c, task, verified).core.log == c.log
  {
  }

  // -------------------------------------------------------- I/O and other steps

  /** Outside the dispatcher, peers only gain signals, and new peers appear. */
  ghost predicate Grows(m: Members, n: Members) {
    && n.exposed == m.exposed
    && (forall p :: p in m.known ==>
          && p in n.known && n.known[p].token == m.known[p].token && n.known[p].verdict == m.known[p].verdict
          && (Ready in m.known[p].emitted ==> Ready in n.known[p].emitted))
    && (forall p :: p in n.known && p !in m.known ==> n.known[p].verdict == None)
  }

  lemma IoGrows(m: Members, task: IoTask)
    ensures Grows(m, MembersAfterIo(m, task))
  {
  }

  lemma EventGrows(c: Core, e: Event, n: Members)
    requires e.PeerEmits? || e.PeerDestroyed? ==> e.peer in c.members.known
    requires MembersSound(c.members) && MembersAfterEvent(c, e, n)
    ensures Grows(c.members, n)
    ensures e.PeerEmits? && e.signal.Ready? ==> BecameReady(n, e.peer)
  {
  }

  lemma IoEffectTickets(c: Core, task: IoTask, ok: bool, order: seq<PeerId>)
    ensures NoTickets(RunIoTask(c, task, ok, order).enqueued)
  {
    hide CompleteAll, CompletePeer, CompleteOfPeer, Add, Expel, Emit, Enumerates;
  }

  lemma EventEffectTickets(c: Core, e: Event, invalidate: bool)
    requires e.PeerEmits? || e.PeerDestroyed? ==> e.peer in c.members.known
    ensures var f := Happens(c, e, invalidate);
            NoTickets(f.enqueued) || (e.PeerEmits? && e.signal.Ready? && f.enqueued == [PeerSlot(e.peer, Ready)])
  {
    hide CompletePeer, TimerRuns, TimesOut, Expel, Emit, Adopt, AcceptNext;
  }

  lemma GrowingKeepsCore(c: Core, d: Core)
    requires Grows(c.members, d.members) && d.log == c.log && d.scope == c.scope
    ensures forall p :: PeerStage(c, p) ==> PeerStage(d, p)
    ensures ExposedCurrent(c) ==> ExposedCurrent(d)
    ensures forall entry :: EntryInSession(c.members, entry) ==> EntryInSession(d.members, entry)
    ensures forall task :: TicketSound(c, task) ==> TicketSound(d, task)
  {
    hide NotesOf, Lifecycle, Connected;
  }

  lemma IoKeepsLifecycle(s: Server, ok: bool, order: seq<PeerId>, invalidate: bool)
    requires LifecycleInvariant(s) && Enabled(s, RunIo(ok, order))
    ensures LifecycleInvariant(Step(s, RunIo(ok, order), invalidate))
  {
    hide RunIoTask, MembersAfterIo, PeerStage, TicketSound, ExposedCurrent, EntryInSession, TicketsUnique, Enumerates,
         Grows;
    var f := RunIoTask(s.core, s.io[0], ok, order);
    IoFrame(s.core, s.io[0], ok, order);
    IoGrows(s.core.members, s.io[0]);
    GrowingKeepsCore(s.core, f.core);
    IoEffectTickets(s.core, s.io[0], ok, order);
    AppendTickets(s.dispatcher, f.enqueued);
    OldOrNew(s.dispatcher, f.enqueued);
    NoTicketSound(f.core, f.enqueued);
  }

  lemma NoTicketSound(c: Core, added: seq<DispatcherTask>)
    requires NoTickets(added)
    ensures forall task :: task in added ==> TicketSound(c, task)
  {
  }

  lemma EventKeepsLifecycle(s: Server, e: Event, invalidate: bool)
    requires LifecycleInvariant(s) && MembersSound(s.core.members)
    requires Enabled(s, e) && !e.RunDispatcher? && !e.RunIo?
    ensures LifecycleInvariant(Step(s, e, invalidate))
  {
    hide Happens, MembersAfterEvent, ListeningAfterEvent, ExposedCurrent, EntryInSession, TicketsUnique, Grows,
         MembersSound, NotesOf, Lifecycle, Connected;
    var f := Happens(s.core, e, invalidate);
    EventFrame(s.core, e, invalidate);
    EventGrows(s.core, e, f.core.members);
    GrowingKeepsCore(s.core, f.core);
    EventEffectTickets(s.core, e, invalidate);
    OldOrNew(s.dispatcher, f.enqueued);
    if e.PeerEmits? && e.signal.Ready? {
      assert forall task :: task in s.dispatcher ==> TicketFor(task) != Some(e.peer);
      assert PeerStage(s.core, e.peer);
    }
    AppendTickets(s.dispatcher, f.enqueued);
  }

  lemma StepKeepsLifecycle(s: Server, e: Event, invalidate: bool)
    requires LifecycleInvariant(s) && MembersSound(s.core.members) && Enabled(s, e)
    ensures LifecycleInvariant(Step(s, e, invalidate))
  {
    hide LifecycleInvariant, MembersSound, Step, MayEmit, Enumerates;
    match e
    case RunDispatcher(verified) => DispatcherKeepsLifecycle(s, verified, invalidate);
    case RunIo(ok, order) => IoKeepsLifecycle(s, ok, order, invalidate);
    case _ => EventKeepsLifecycle(s, e, invalidate);
  }
}
