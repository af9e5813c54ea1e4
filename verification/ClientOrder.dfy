/** What the client tells its user about one connection: `connected` first,
    `closed` last and once, and nothing across sessions but one late `closed`. */
module ClientOrder {
  import opened Common
  import opened Queues
  import opened NotificationScope
  import opened Requests
  import opened ClientModel
  import opened ClientProofs

  predicate Mentions(note: UserNote) {
    !note.ConnectFailed? && !note.VerificationFailed?
  }

  /** `b` may be told after `a`: about one peer, nothing precedes `connected` and
      nothing follows `closed`. */
  predicate MayFollow(a: UserNote, b: UserNote) {
    Mentions(a) && Mentions(b) && a.peer == b.peer ==> !b.Connected? && !a.Closed?
  }

  predicate Tells(task: DispatcherTask, note: UserNote) {
    task.Notify? && task.notification == Deliver(note)
  }

  predicate TellsAbout(task: DispatcherTask, p: Handle) {
    task.Notify? && task.notification.Deliver? && task.notification.note.About(p)
  }

  predicate TaskMayFollow(a: DispatcherTask, b: DispatcherTask) {
    a.Notify? && a.notification.Deliver? && b.Notify? && b.notification.Deliver? ==>
      MayFollow(a.notification.note, b.notification.note)
  }

  predicate EntryMayFollow(a: Entry, b: DispatcherTask) {
    b.Notify? && b.notification.Deliver? ==> MayFollow(a.note, b.notification.note)
  }

  /** Told and queued notes, taken together in order, respect `MayFollow`. */
  ghost predicate NotesOrdered(s: Client) {
    && (forall i, j :: 0 <= i < j < |s.core.log| ==> MayFollow(s.core.log[i].note, s.core.log[j].note))
    && (forall i, j :: 0 <= i < j < |s.dispatcher| ==> TaskMayFollow(s.dispatcher[i], s.dispatcher[j]))
    && (forall entry, task :: entry in s.core.log && task in s.dispatcher ==> EntryMayFollow(entry, task))
  }

  predicate ForPeer(task: IoTask, p: Handle) {
    (task.ForwardSignal? || task.AnnouncePeer?) && task.peer == p
  }

  /** A peer's announcement is the first I/O task for it. */
  ghost predicate AnnouncedFirst(io: seq<IoTask>) {
    forall i, j :: 0 <= i < j < |io| && io[j].AnnouncePeer? ==> !ForPeer(io[i], io[j].peer)
  }

  ghost predicate Untold(s: Client, p: Handle) {
    && (forall task :: task in s.dispatcher ==> !TellsAbout(task, p))
    && (forall entry :: entry in s.core.log ==> !entry.note.About(p))
  }

  ghost predicate NotClosedYet(s: Client, p: Handle) {
    && (forall task :: task in s.dispatcher ==> !Tells(task, Closed(p)))
    && (forall entry :: entry in s.core.log ==> entry.note != Closed(p))
  }

  predicate ConnectedTold(log: seq<Entry>, p: Handle) {
    exists entry :: entry in log && entry.note == Connected(p)
  }

  /** `connected` for `p` was told or is queued, unless its session is over. */
  ghost predicate ConnectedTaken(s: Client, p: Handle) {
    || p.token < s.core.scope.generation
    || ConnectedTold(s.core.log, p)
    || Notify(p.token, Deliver(Connected(p))) in s.dispatcher
  }

  /** The current peer: not closed, not told of before its announcement, and its
      `connected` told, queued or about to be queued. */
  ghost predicate PeerStage(s: Client, p: Handle) {
    && NotClosedYet(s, p)
    && (if AnnouncePeer(p) in s.io then Untold(s, p) else ConnectedTaken(s, p))
  }

  /** A queued or told note belongs to its peer's generation, except that `closed`
      may come from a request sent later; a data or error note comes after `connected`. */
  ghost predicate NoteSound(s: Client, task: DispatcherTask) {
    task.Notify? && task.notification.Deliver? && Mentions(task.notification.note) ==>
      var note := task.notification.note;
      && note.peer.token <= task.token
      && (!note.Closed? ==> task.token == note.peer.token)
      && (note.Inner(note.peer) ==> ConnectedTaken(s, note.peer))
  }

  ghost predicate EntrySound(s: Client, j: nat)
    requires j < |s.core.log|
  {
    Mentions(s.core.log[j].note) ==>
      var note := s.core.log[j].note;
      && note.peer.token <= s.core.log[j].token
      && (!note.Closed? ==> s.core.log[j].token == note.peer.token)
      && (note.Inner(note.peer) ==> ConnectedTold(s.core.log[..j], note.peer))
  }

  predicate FailureInSession(task: DispatcherTask) {
    task.Notify? && task.notification.Deliver? && !Mentions(task.notification.note) ==>
      task.token == task.notification.note.attempt
  }

  /** A failed attempt is only ever reported in its own session. */
  ghost predicate FailuresInSession(s: Client) {
    && (forall task :: task in s.dispatcher ==> FailureInSession(task))
    && (forall entry :: entry in s.core.log && !Mentions(entry.note) ==> entry.token == entry.note.attempt)
  }

  ghost predicate OrderInvariant(s: Client) {
    && NotesOrdered(s)
    && AnnouncedFirst(s.io)
    && (s.core.session.peer.Some? ==> PeerStage(s, s.core.session.peer.value))
    && (forall task :: task in s.dispatcher ==> NoteSound(s, task))
    && (forall j :: 0 <= j < |s.core.log| ==> EntrySound(s, j))
  }

  // ------------------------------------------------------------ queue algebra

  lemma AppendOrdered(s: Client, q: seq<DispatcherTask>, added: seq<DispatcherTask>)
    requires forall i, j :: 0 <= i < j < |q| ==> TaskMayFollow(q[i], q[j])
    requires |added| <= 1
    requires added != [] ==> forall task :: task in q ==> TaskMayFollow(task, added[0])
    ensures var t := q + added; forall i, j :: 0 <= i < j < |t| ==> TaskMayFollow(t[i], t[j])
  {
    var t := q + added;
    forall i, j | 0 <= i < j < |t|
      ensures TaskMayFollow(t[i], t[j])
    {
      if j == |q| {
        assert q[i] in q;
      }
    }
  }

  lemma AppendAnnounced(io: seq<IoTask>, added: seq<IoTask>)
    requires AnnouncedFirst(io) && |added| <= 1
    requires added != [] && added[0].AnnouncePeer? ==> forall task :: task in io ==> !ForPeer(task, added[0].peer)
    ensures AnnouncedFirst(io + added)
  {
    var t := io + added;
    forall i, j | 0 <= i < j < |t| && t[j].AnnouncePeer?
      ensures !ForPeer(t[i], t[j].peer)
    {
      if j == |io| {
        assert io[i] in io;
      }
    }
  }

  lemma FirstForPeer(io: seq<IoTask>, p: Handle)
    requires AnnouncedFirst(io) && io != [] && ForPeer(io[0], p)
    ensures AnnouncePeer(p) !in io[1..]
    ensures AnnouncedFirst(io[1..])
  {
  }

  lemma TailAnnounced(io: seq<IoTask>)
    requires AnnouncedFirst(io) && io != []
    ensures AnnouncedFirst(io[1..])
  {
  }

  // --------------------------------------------------------- dispatcher steps

  /** Running a dispatcher task tells at most its own note, appends no note, and
      posts an announcement for no one. */
  lemma DispatcherEffectTells(c: Core, task: DispatcherTask, verified: bool)
    ensures var f := RunDispatcherTask(c, task, verified);
            && |f.enqueued| <= 1 && |f.posted| <= 1
            && (forall t :: t in f.enqueued ==> !t.Notify?)
            && (forall t :: t in f.posted ==> !t.AnnouncePeer?)
            && (forall t :: t in f.posted && t.ForwardSignal? ==> task == SignalSlot(t.peer, t.signal))
            && c.scope.generation <= f.core.scope.generation
  {
  }

  lemma DispatcherKeepsNotesOrdered(s: Client, verified: bool, invalidate: bool)
    requires NotesOrdered(s) && s.dispatcher != []
    ensures NotesOrdered(Step(s, RunDispatcher(verified), invalidate))
  {
    hide RunDispatcherTask, MayFollow;
    var t := Step(s, RunDispatcher(verified), invalidate);
    var f := RunDispatcherTask(s.core, s.dispatcher[0], verified);
    DispatcherEffectTells(s.core, s.dispatcher[0], verified);
    DispatcherEffectLog(s.core, s.dispatcher[0], verified);
    StepQueues(s, RunDispatcher(verified), invalidate);
    var rest := s.dispatcher[1..];
    assert forall task :: task in rest ==> TaskMayFollow(s.dispatcher[0], task);
    assert f.enqueued != [] ==> f.enqueued[0] in f.enqueued;
    AppendOrdered(s, rest, f.enqueued);
    if f.core.log != s.core.log {
      assert s.dispatcher[0] in s.dispatcher;
      forall i, j | 0 <= i < j < |t.core.log|
        ensures MayFollow(t.core.log[i].note, t.core.log[j].note)
      {
        if j == |s.core.log| {
          assert s.core.log[i] in s.core.log;
          assert EntryMayFollow(s.core.log[i], s.dispatcher[0]);
        }
      }
    }
  }

  lemma TakenAfterDispatcher(s: Client, verified: bool, invalidate: bool, p: Handle)
    requires s.dispatcher != [] && ConnectedTaken(s, p)
    requires p.token <= s.core.scope.generation && (p.token == s.core.scope.generation ==> s.core.scope.running)
    ensures ConnectedTaken(Step(s, RunDispatcher(verified), invalidate), p)
  {
    hide RunDispatcherTask;
    var t := Step(s, RunDispatcher(verified), invalidate);
    StepQueues(s, RunDispatcher(verified), invalidate);
    DispatcherEffectTells(s.core, s.dispatcher[0], verified);
    DispatcherEffectLog(s.core, s.dispatcher[0], verified);
    if s.dispatcher[0] == Notify(p.token, Deliver(Connected(p))) && p.token == s.core.scope.generation {
      ConnectedDelivered(s.core, p, verified);
      assert Entry(Connected(p), p.token) in t.core.log;
    }
    if ConnectedTold(s.core.log, p) {
      var entry :| entry in s.core.log && entry.note == Connected(p);
      assert entry in t.core.log;
    }
  }

  lemma ConnectedDelivered(c: Core, p: Handle, verified: bool)
    requires c.scope.IsCurrent(p.token)
    ensures RunDispatcherTask(c, Notify(p.token, Deliver(Connected(p))), verified).core.log
         == c.log + [Entry(Connected(p), p.token)]
  {
  }

  lemma DispatcherKeepsStage(s: Client, verified: bool, invalidate: bool, p: Handle)
    requires s.dispatcher != [] && PeerStage(s, p)
    requires p.token <= s.core.scope.generation && (p.token == s.core.scope.generation ==> s.core.scope.running)
    ensures PeerStage(Step(s, RunDispatcher(verified), invalidate), p)
  {
    hide RunDispatcherTask, ConnectedTaken;
    StepQueues(s, RunDispatcher(verified), invalidate);
    DispatcherEffectTells(s.core, s.dispatcher[0], verified);
    DispatcherEffectLog(s.core, s.dispatcher[0], verified);
    assert s.dispatcher[0] in s.dispatcher;
    if AnnouncePeer(p) !in s.io {
      TakenAfterDispatcher(s, verified, invalidate, p);
    }
  }

  /** A note about to be told under the current generation follows its `connected`. */
  lemma DeliveredInOrder(s: Client, token: Token, note: UserNote)
    requires NotesOrdered(s) && s.dispatcher != [] && s.dispatcher[0] == Notify(token, Deliver(note))
    requires NoteSound(s, s.dispatcher[0]) && s.core.scope.IsCurrent(token) && Mentions(note) && note.Inner(note.peer)
    ensures ConnectedTold(s.core.log, note.peer)
  {
    var connected := Notify(token, Deliver(Connected(note.peer)));
    forall j | 0 <= j < |s.dispatcher|
      ensures s.dispatcher[j] != connected
    {
      if j > 0 {
        assert TaskMayFollow(s.dispatcher[0], s.dispatcher[j]);
      }
    }
  }

  lemma DispatcherKeepsEntriesSound(s: Client, verified: bool, invalidate: bool)
    requires NotesOrdered(s) && s.dispatcher != [] && NoteSound(s, s.dispatcher[0])
    requires forall j :: 0 <= j < |s.core.log| ==> EntrySound(s, j)
    ensures var t := Step(s, RunDispatcher(verified), invalidate); forall j :: 0 <= j < |t.core.log| ==>
      EntrySound(t, j)
  {
    hide RunDispatcherTask, NotesOrdered, ConnectedTaken;
    var t := Step(s, RunDispatcher(verified), invalidate);
    DispatcherEffectLog(s.core, s.dispatcher[0], verified);
    forall j | 0 <= j < |t.core.log|
      ensures EntrySound(t, j)
    {
      if j < |s.core.log| {
        assert EntrySound(s, j);
        assert t.core.log[..j] == s.core.log[..j];
      } else {
        var task := s.dispatcher[0];
        assert t.core.log[..j] == s.core.log;
        if Mentions(task.notification.note) && task.notification.note.Inner(task.notification.note.peer) {
          DeliveredInOrder(s, task.token, task.notification.note);
        }
      }
    }
  }

  /** Every peer ever made belongs to a past generation, or to the current one while it runs. */
  ghost predicate PeersSound(c: Core) {
    forall p :: p in c.session.peers ==>
      p.token <= c.scope.generation && (p.token == c.scope.generation ==> c.scope.running)
  }

  lemma StepKeepsPeersSound(s: Client, e: Event, invalidate: bool)
    requires PeersSound(s.core) && Enabled(s, e)
    ensures PeersSound(Step(s, e, invalidate).core)
  {
    hide RunDispatcherTask, RunIoTask, Happens;
    match e
    case RunDispatcher(verified) =>
      DispatcherEffectLog(s.core, s.dispatcher[0], verified);
      DispatcherEffectRunning(s.core, s.dispatcher[0], verified);
    case RunIo(endpointOk) => IoEffectPeers(s.core, s.io[0], endpointOk);
    case _ => EventEffectPeers(s.core, e, invalidate);
  }

  lemma DispatcherEffectRunning(c: Core, task: DispatcherTask, verified: bool)
    ensures var f := RunDispatcherTask(c, task, verified);
            c.scope.generation < f.core.scope.generation
            || (c.scope.generation == f.core.scope.generation && (c.scope.running ==> f.core.scope.running))
  {
  }

  lemma IoEffectPeers(c: Core, task: IoTask, endpointOk: bool)
    ensures var f := RunIoTask(c, task, endpointOk);
            && f.core.scope == c.scope
            && (forall p :: p in f.core.session.peers ==> p in c.session.peers || c.scope.IsCurrent(p.token))
  {
    hide CompleteAll, Complete, Add;
  }

  lemma EventEffectPeers(c: Core, e: Event, invalidate: bool)
    ensures var f := Happens(c, e, invalidate); f.core.scope == c.scope && f.core.session.peers == c.session.peers
  {
    hide CompleteAll, TimerRuns, TimesOut;
  }

  lemma DispatcherKeepsOrder(s: Client, verified: bool, invalidate: bool)
    requires OrderInvariant(s) && HandlesKnown(s) && PeersSound(s.core) && s.dispatcher != []
    ensures OrderInvariant(Step(s, RunDispatcher(verified), invalidate))
  {
    hide RunDispatcherTask, NotesOrdered, AnnouncedFirst, PeerStage, ConnectedTaken, EntrySound;
    var t := Step(s, RunDispatcher(verified), invalidate);
    var f := RunDispatcherTask(s.core, s.dispatcher[0], verified);
    StepQueues(s, RunDispatcher(verified), invalidate);
    DispatcherEffectTells(s.core, s.dispatcher[0], verified);
    DispatcherEffectLog(s.core, s.dispatcher[0], verified);
    DispatcherKeepsNotesOrdered(s, verified, invalidate);
    DispatcherKeepsEntriesSound(s, verified, invalidate);
    assert f.posted != [] ==> f.posted[0] in f.posted;
    AppendAnnounced(s.io, f.posted);
    if s.core.session.peer.Some? {
      DispatcherKeepsStage(s, verified, invalidate, s.core.session.peer.value);
    }
    forall task | task in t.dispatcher
      ensures NoteSound(t, task)
    {
      if task in s.dispatcher && task.Notify? && task.notification.Deliver? && Mentions(task.notification.note)
         && task.notification.note.Inner(task.notification.note.peer)
      {
        assert KnownTask(s.core.session.peers, task);
        TakenAfterDispatcher(s, verified, invalidate, task.notification.note.peer);
      }
    }
  }

  // -------------------------------------------------------- I/O and other steps

  /** What an effect outside the dispatcher may tell: only notes about the current
      peer, in its generation, and its `closed` exactly when giving it up. */
  ghost predicate EffectTells(c: Core, f: Effect) {
    && f.core.log == c.log && f.core.scope == c.scope && |f.enqueued| <= 1 && |f.posted| <= 1
    && (forall task ::
          task in f.enqueued && task.Notify? && task.notification.Deliver? && Mentions(task.notification.note) ==>
          var note := task.notification.note;
          && c.session.peer == Some(note.peer)
          && note.peer.token <= task.token
          && (!note.Closed? ==> task.token == note.peer.token)
          && f.core.session.peer == (if note.Closed? then None else c.session.peer))
    && (forall task :: task in f.posted && task.AnnouncePeer? ==> task.peer !in c.session.peers && f.enqueued == [])
    && (f.core.session.peer == None || f.core.session.peer == c.session.peer
        || AnnouncePeer(f.core.session.peer.value) in f.posted)
  }

  lemma IoEffectTells(c: Core, task: IoTask, endpointOk: bool)
    requires CoreHandlesKnown(c)
    ensures var f := RunIoTask(c, task, endpointOk);
            && EffectTells(c, f)
            && (forall t, p :: t in f.enqueued && TellsAbout(t, p) ==> ForPeer(task, p))
            && (forall t, p :: t in f.enqueued && Tells(t, Connected(p)) ==> task == AnnouncePeer(p))
            && (task.AnnouncePeer? && c.session.peer == Some(task.peer) ==>
                  f.core.session.peer == c.session.peer
                  && f.enqueued == [Notify(task.peer.token, Deliver(Connected(task.peer)))])
  {
    hide CompleteAll, Complete, Add;
  }

  lemma EventEffectTells(c: Core, e: Event, invalidate: bool)
    requires RequestsOnPeer(c)
    ensures var f := Happens(c, e, invalidate);
            && EffectTells(c, f)
            && (forall t, p :: t in f.enqueued && TellsAbout(t, p) ==> Tells(t, Closed(p)))
            && (forall t :: t in f.posted ==> !t.AnnouncePeer?)
  {
    hide CompleteAll, TimerRuns, Conserved;
  }

  lemma TakenKept(s: Client, t: Client, p: Handle)
    requires ConnectedTaken(s, p)
    requires t.core.log == s.core.log && t.core.scope == s.core.scope
    requires forall task :: task in s.dispatcher ==> task in t.dispatcher
    ensures ConnectedTaken(t, p)
  {
  }

  lemma NotesOrderedAfterAppend(s: Client, t: Client, f: Effect)
    requires NotesOrdered(s) && EffectTells(s.core, f)
    requires s.core.session.peer.Some? ==> PeerStage(s, s.core.session.peer.value)
    requires t.core == f.core && t.dispatcher == s.dispatcher + f.enqueued
    requires forall p: Handle :: (exists task :: task in f.enqueued && Tells(task, Connected(p))) ==> Untold(s, p)
    ensures NotesOrdered(t)
  {
    hide ConnectedTaken;
    if f.enqueued != [] {
      var added := f.enqueued[0];
      assert f.enqueued == [added];
      if added.Notify? && added.notification.Deliver? && Mentions(added.notification.note) {
        var p := added.notification.note.peer;
        assert PeerStage(s, p);
        if added.notification.note.Connected? {
          assert Tells(added, Connected(p));
          assert Untold(s, p);
        }
      }
      assert forall task :: task in s.dispatcher ==> TaskMayFollow(task, added);
      assert forall entry :: entry in s.core.log ==> EntryMayFollow(entry, added);
    }
    AppendOrdered(s, s.dispatcher, f.enqueued);
  }

  lemma IoKeepsStage(s: Client, endpointOk: bool, invalidate: bool)
    requires OrderInvariant(s) && HandlesKnown(s) && s.io != []
    ensures var t := Step(s, RunIo(endpointOk), invalidate);
            t.core.session.peer.Some? ==> PeerStage(t, t.core.session.peer.value)
  {
    hide RunIoTask, NotesOrdered, AnnouncedFirst, ConnectedTaken, EntrySound;
    var t := Step(s, RunIo(endpointOk), invalidate);
    StepQueues(s, RunIo(endpointOk), invalidate);
    IoEffectTells(s.core, s.io[0], endpointOk);
    if t.core.session.peer.Some? {
      var p := t.core.session.peer.value;
      if t.core.session.peer == s.core.session.peer {
        KeptPeerStage(s, endpointOk, invalidate, p);
      } else {
        assert forall task :: task in s.dispatcher ==> KnownTask(s.core.session.peers, task);
        assert AnnouncePeer(p) in t.io;
      }
    }
  }

  lemma KeptPeerStage(s: Client, endpointOk: bool, invalidate: bool, p: Handle)
    requires OrderInvariant(s) && HandlesKnown(s) && s.io != []
    requires s.core.session.peer == Some(p) && Step(s, RunIo(endpointOk), invalidate).core.session.peer == Some(p)
    ensures PeerStage(Step(s, RunIo(endpointOk), invalidate), p)
  {
    hide RunIoTask, NotesOrdered, ConnectedTaken, EntrySound, AnnouncedFirst;
    var t := Step(s, RunIo(endpointOk), invalidate);
    var head := s.io[0];
    StepQueues(s, RunIo(endpointOk), invalidate);
    IoEffectTells(s.core, head, endpointOk);
    if ForPeer(head, p) {
      FirstForPeer(s.io, p);
      assert AnnouncePeer(p) !in t.io;
    }
    if AnnouncePeer(p) !in t.io {
      if head == AnnouncePeer(p) {
        AnnouncedTaken(t, p);
      } else {
        TakenKept(s, t, p);
      }
    }
  }

  lemma AnnouncedTaken(t: Client, p: Handle)
    requires Notify(p.token, Deliver(Connected(p))) in t.dispatcher
    ensures ConnectedTaken(t, p)
  {
  }

  lemma IoKeepsNotesSound(s: Client, endpointOk: bool, invalidate: bool)
    requires OrderInvariant(s) && HandlesKnown(s) && s.io != []
    ensures var t := Step(s, RunIo(endpointOk), invalidate); forall task :: task in t.dispatcher ==> NoteSound(t, task)
  {
    hide RunIoTask, NotesOrdered, AnnouncedFirst, ConnectedTaken, EntrySound;
    var t := Step(s, RunIo(endpointOk), invalidate);
    StepQueues(s, RunIo(endpointOk), invalidate);
    IoEffectTells(s.core, s.io[0], endpointOk);
    forall task | task in t.dispatcher
      ensures NoteSound(t, task)
    {
      if task.Notify? && task.notification.Deliver? && Mentions(task.notification.note)
         && task.notification.note.Inner(task.notification.note.peer)
      {
        var p := task.notification.note.peer;
        if task in s.dispatcher {
          assert NoteSound(s, task);
          TakenKept(s, t, p);
        } else {
          InnerForwarded(s, endpointOk, invalidate, task);
        }
      }
    }
  }

  /** A data or error note is forwarded only after its peer's announcement ran. */
  lemma InnerForwarded(s: Client, endpointOk: bool, invalidate: bool, task: DispatcherTask)
    requires OrderInvariant(s) && HandlesKnown(s) && s.io != []
    requires task in RunIoTask(s.core, s.io[0], endpointOk).enqueued
    requires task.Notify? && task.notification.Deliver? && Mentions(task.notification.note)
    requires task.notification.note.Inner(task.notification.note.peer)
    ensures ConnectedTaken(Step(s, RunIo(endpointOk), invalidate), task.notification.note.peer)
  {
    hide RunIoTask, NotesOrdered, ConnectedTaken, EntrySound, AnnouncedFirst;
    var p := task.notification.note.peer;
    StepQueues(s, RunIo(endpointOk), invalidate);
    IoEffectTells(s.core, s.io[0], endpointOk);
    assert TellsAbout(task, p);
    FirstForPeer(s.io, p);
    if s.io[0] == AnnouncePeer(p) {
      AnnouncedTaken(Step(s, RunIo(endpointOk), invalidate), p);
    } else {
      assert AnnouncePeer(p) !in s.io;
      TakenKept(s, Step(s, RunIo(endpointOk), invalidate), p);
    }
  }

  lemma SameLogKeepsEntries(s: Client, t: Client)
    requires t.core.log == s.core.log
    requires forall j :: 0 <= j < |s.core.log| ==> EntrySound(s, j)
    ensures forall j :: 0 <= j < |t.core.log| ==> EntrySound(t, j)
  {
    forall j | 0 <= j < |t.core.log|
      ensures EntrySound(t, j)
    {
      assert EntrySound(s, j);
    }
  }

  lemma IoKeepsOrder(s: Client, endpointOk: bool, invalidate: bool)
    requires OrderInvariant(s) && HandlesKnown(s) && s.io != []
    ensures OrderInvariant(Step(s, RunIo(endpointOk), invalidate))
  {
    hide RunIoTask, NotesOrdered, AnnouncedFirst, PeerStage, ConnectedTaken, EntrySound, NoteSound;
    var t := Step(s, RunIo(endpointOk), invalidate);
    var f := RunIoTask(s.core, s.io[0], endpointOk);
    IoEffectTells(s.core, s.io[0], endpointOk);
    IoKeepsStage(s, endpointOk, invalidate);
    IoKeepsNotesSound(s, endpointOk, invalidate);
    SameLogKeepsEntries(s, t);
    TailAnnounced(s.io);
    AnnouncedAfterTail(s, f);
    ConnectedUntold(s, endpointOk);
    NotesOrderedAfterAppend(s, t, f);
  }

  lemma AnnouncedAfterTail(s: Client, f: Effect)
    requires HandlesKnown(s) && s.io != [] && AnnouncedFirst(s.io[1..]) && EffectTells(s.core, f)
    ensures AnnouncedFirst(s.io[1..] + f.posted)
  {
    hide AnnouncedFirst;
    assert f.posted != [] ==> f.posted[0] in f.posted;
    OldOrNew(s.io, []);
    assert forall task :: task in s.io ==> KnownIoTask(s.core.session.peers, task);
    AppendAnnounced(s.io[1..], f.posted);
  }

  lemma ConnectedUntold(s: Client, endpointOk: bool)
    requires OrderInvariant(s) && HandlesKnown(s) && s.io != []
    ensures forall p: Handle ::
              (exists task :: task in RunIoTask(s.core, s.io[0], endpointOk).enqueued && Tells(task, Connected(p)))
              ==> Untold(s, p)
  {
    hide RunIoTask, NotesOrdered, AnnouncedFirst, ConnectedTaken, EntrySound, NoteSound;
    IoEffectTells(s.core, s.io[0], endpointOk);
    assert s.io[0] in s.io;
    forall p: Handle, task | task in RunIoTask(s.core, s.io[0], endpointOk).enqueued && Tells(task, Connected(p))
      ensures Untold(s, p)
    {
      assert s.io[0] == AnnouncePeer(p);
      assert s.core.session.peer == Some(p);
    }
  }

  lemma EventKeepsOrder(s: Client, e: Event, invalidate: bool)
    requires OrderInvariant(s) && HandlesKnown(s) && RequestsOnPeer(s.core)
    requires Enabled(s, e) && !e.RunDispatcher? && !e.RunIo?
    ensures OrderInvariant(Step(s, e, invalidate))
  {
    hide Happens, NotesOrdered, AnnouncedFirst, ConnectedTaken, EntrySound, RequestsOnPeer;
    var t := Step(s, e, invalidate);
    var f := Happens(s.core, e, invalidate);
    StepQueues(s, e, invalidate);
    EventEffectTells(s.core, e, invalidate);
    SameLogKeepsEntries(s, t);
    assert f.posted != [] ==> f.posted[0] in f.posted;
    AppendAnnounced(s.io, f.posted);
    NotesOrderedAfterAppend(s, t, f);
    if t.core.session.peer.Some? && AnnouncePeer(t.core.session.peer.value) !in s.io {
      TakenKept(s, t, t.core.session.peer.value);
    }
    forall task | task in t.dispatcher
      ensures NoteSound(t, task)
    {
      if task in s.dispatcher && task.Notify? && task.notification.Deliver? && Mentions(task.notification.note)
         && task.notification.note.Inner(task.notification.note.peer)
      {
        assert NoteSound(s, task);
        TakenKept(s, t, task.notification.note.peer);
      }
    }
  }

  lemma IoEffectFailures(c: Core, task: IoTask, endpointOk: bool)
    ensures var f := RunIoTask(c, task, endpointOk);
            f.core.log == c.log && forall t :: t in f.enqueued ==> FailureInSession(t)
  {
    hide CompleteAll, Complete, Add;
  }

  lemma EventEffectFailures(c: Core, e: Event, invalidate: bool)
    ensures var f := Happens(c, e, invalidate);
            f.core.log == c.log && forall t :: t in f.enqueued ==> FailureInSession(t)
  {
    hide CompleteAll, TimerRuns, TimesOut;
  }

  lemma StepKeepsFailures(s: Client, e: Event, invalidate: bool)
    requires FailuresInSession(s) && Enabled(s, e)
    ensures FailuresInSession(Step(s, e, invalidate))
  {
    hide RunDispatcherTask, RunIoTask, Happens;
    StepQueues(s, e, invalidate);
    match e
    case RunDispatcher(verified) =>
      DispatcherEffectTells(s.core, s.dispatcher[0], verified);
      DispatcherEffectLog(s.core, s.dispatcher[0], verified);
    case RunIo(endpointOk) => IoEffectFailures(s.core, s.io[0], endpointOk);
    case _ => EventEffectFailures(s.core, e, invalidate);
  }
}
