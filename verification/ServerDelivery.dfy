/** Nothing a peer handed over is lost on its way to the user: two dispatcher hops
    behave as one FIFO per peer, and the user is told what that FIFO yields. */
module ServerDelivery {
  import opened Common
  import opened Queues
  import opened NotificationScope
  import opened Requests
  import opened ServerModel
  import opened ServerProofs
  import opened ServerProgress
  import opened ServerPeers
  import opened ServerLifecycle
  import opened ServerNarrative

  // --------------------------------------------------------------- in flight

  /** A signal is first queued for its peer's slot, then for the server's own task. */
  datatype Hop = ToSlot | ToUser

  function Carried(task: DispatcherTask, p: PeerId, hop: Hop): seq<Signal> {
    match task
    case PeerSlot(q, signal) => if hop.ToSlot? && q == p && !signal.Response? then [signal] else []
    case DeliverSignal(q, signal) => if hop.ToUser? && q == p then [signal] else []
    case Notify(_, Verify(q)) => if hop.ToUser? && q == p then [Ready] else []
    case _ => []
  }

  function InFlight(q: seq<DispatcherTask>, p: PeerId, hop: Hop): seq<Signal>
    decreases |q|
  {
    if q == [] then [] else Carried(q[0], p, hop) + InFlight(q[1..], p, hop)
  }

  lemma {:induction false} InFlightAppend(q: seq<DispatcherTask>, added: seq<DispatcherTask>, p: PeerId, hop: Hop)
    ensures InFlight(q + added, p, hop) == InFlight(q, p, hop) + InFlight(added, p, hop)
    decreases |q|
  {
    if q == [] {
      assert q + added == added;
    } else {
      assert (q + added)[1..] == q[1..] + added;
      InFlightAppend(q[1..], added, p, hop);
    }
  }

  lemma InFlightOne(task: DispatcherTask, p: PeerId, hop: Hop)
    ensures InFlight([task], p, hop) == Carried(task, p, hop)
  {
    assert [task][1..] == [];
  }

  lemma {:induction false} NothingInFlight(q: seq<DispatcherTask>, p: PeerId, hop: Hop)
    requires forall task :: task in q ==> Carried(task, p, hop) == []
    ensures InFlight(q, p, hop) == []
    decreases |q|
  {
    if q != [] {
      assert q[0] in q;
      NothingInFlight(q[1..], p, hop);
    }
  }

  // -------------------------------------------------------------- accounting

  /** A peer of the running session that was not refused, */
  predicate Unrefused(c: Core, p: PeerId) {
    && p in c.members.known
    && c.scope.IsCurrent(c.members.known[p].token)
    && c.members.known[p].verdict != Some(false)
  }

  /** nor closed locally. */
  predicate Regular(c: Core, p: PeerId) {
    Unrefused(c, p) && !c.members.known[p].removed
  }

  /** The user was told the narrative of what was handled, and sees the peer accordingly. */
  ghost predicate PeerNarrated(c: Core, p: PeerId)
    requires p in c.members.known
  {
    && NotesOf(c.log, p) == Narrative(p, c.members.known[p].handled)
    && (p in c.members.exposed <==> ExposureAfter(c.members.known[p].handled).Shown?)
  }

  ghost predicate AllNarrated(c: Core) {
    forall p :: Unrefused(c, p) ==> PeerNarrated(c, p)
  }

  /** What was handled, and what is on its way there; a destroyed peer's slots are not. */
  function Accounted(r: PeerRecord, q: seq<DispatcherTask>, p: PeerId): seq<Signal> {
    r.handled + InFlight(q, p, ToUser) + if r.released then [] else InFlight(q, p, ToSlot)
  }

  predicate ClosingSeen(r: PeerRecord, q: seq<DispatcherTask>, p: PeerId) {
    Closing in r.handled + InFlight(q, p, ToUser)
  }

  ghost predicate PeerAccounted(s: Server, p: PeerId)
    requires p in s.core.members.known
  {
    var r := s.core.members.known[p];
    && Accounted(r, s.dispatcher, p) <= r.emitted
    && (!r.released ==> Accounted(r, s.dispatcher, p) == r.emitted)
    && (p !in s.core.members.peers || r.released || ForgetPeer(p) in s.io ==> ClosingSeen(r, s.dispatcher, p))
  }

  ghost predicate AllAccounted(s: Server) {
    forall p :: Regular(s.core, p) ==> PeerAccounted(s, p)
  }

  // -------------------------------------------------------------- known tasks

  predicate KnownTask(m: Members, task: DispatcherTask) {
    && (task.PeerSlot? || task.DeliverSignal? ==> task.peer in m.known)
    && (task.DeliverSignal? ==> !task.signal.Ready?)
    && (task.Notify? && task.notification.Verify? ==> task.notification.peer in m.known)
  }

  predicate KnownIoTask(m: Members, task: IoTask) {
    && (task.PeerCloseTask? && task.notify ==> task.peer in m.known && m.known[task.peer].removed)
    && (task.ForgetPeer? ==> task.peer in m.known)
  }

  /** Tasks concern peers that were accepted, and only a local close asks for its own
      `peer_closed` notification. */
  ghost predicate TasksKnown(s: Server) {
    && (forall task :: task in s.dispatcher ==> KnownTask(s.core.members, task))
    && (forall task :: task in s.io ==> KnownIoTask(s.core.members, task))
  }

  ghost predicate KeepsKnown(m: Members, n: Members) {
    forall p :: p in m.known ==> p in n.known && (m.known[p].removed ==> n.known[p].removed)
  }

  ghost predicate EnqueuedKnown(f: Effect) {
    forall task :: task in f.enqueued ==> KnownTask(f.core.members, task)
  }

  ghost predicate PostedKnown(f: Effect) {
    forall task :: task in f.posted ==> KnownIoTask(f.core.members, task)
  }

  lemma DispatcherKeepsKnown(c: Core, task: DispatcherTask, verified: bool)
    ensures KeepsKnown(c.members, MembersAfterDispatcher(c, task, verified))
  {
  }

  lemma DispatcherEffectKnown(c: Core, task: DispatcherTask, verified: bool)
    ensures var f := RunDispatcherTask(c, task, verified); EnqueuedKnown(f) && PostedKnown(f)
  {
    hide Judge, Settle;
  }

  lemma IoKeepsKnown(m: Members, task: IoTask)
    ensures KeepsKnown(m, MembersAfterIo(m, task))
  {
  }

  lemma IoEnqueuedKnown(c: Core, task: IoTask, ok: bool, order: seq<PeerId>)
    requires KnownIoTask(c.members, task)
    ensures EnqueuedKnown(RunIoTask(c, task, ok, order))
  {
    hide CompleteAll, CompletePeer, CompleteOfPeer, Add, Enumerates, Expel, PeerCloseTasks;
  }

  lemma IoPostedKnown(c: Core, task: IoTask, ok: bool, order: seq<PeerId>)
    ensures PostedKnown(RunIoTask(c, task, ok, order))
  {
    hide CompleteAll, CompletePeer, CompleteOfPeer, Add, Enumerates, Emit;
  }

  lemma EventKeepsKnown(c: Core, e: Event, n: Members)
    requires e.PeerEmits? || e.PeerDestroyed? ==> e.peer in c.members.known
    requires MembersSound(c.members) && MembersAfterEvent(c, e, n)
    ensures KeepsKnown(c.members, n)
  {
  }

  lemma EventEnqueuedKnown(c: Core, e: Event, invalidate: bool)
    requires e.PeerEmits? || e.PeerDestroyed? ==> e.peer in c.members.known
    ensures EnqueuedKnown(Happens(c, e, invalidate))
  {
    hide CompletePeer, TimerRuns, TimesOut, Adopt, AcceptNext, Expel;
  }

  lemma EventPostedKnown(c: Core, e: Event, invalidate: bool)
    requires e.PeerEmits? || e.PeerDestroyed? ==> e.peer in c.members.known
    ensures PostedKnown(Happens(c, e, invalidate))
  {
    hide CompletePeer, TimerRuns, TimesOut, Adopt, AcceptNext, Emit;
  }

  lemma StepKeepsTasksKnown(s: Server, e: Event, invalidate: bool)
    requires TasksKnown(s) && MembersSound(s.core.members) && Enabled(s, e)
    ensures TasksKnown(Step(s, e, invalidate))
  {
    hide RunDispatcherTask, RunIoTask, Happens, MayEmit, Enumerates, MembersSound, MembersAfterDispatcher,
         MembersAfterIo, MembersAfterEvent, ListeningAfterIo, ListeningAfterEvent;
    StepQueues(s, e, invalidate);
    match e
    case RunDispatcher(verified) =>
      DispatcherFrame(s.core, s.dispatcher[0], verified);
      DispatcherKeepsKnown(s.core, s.dispatcher[0], verified);
      DispatcherEffectKnown(s.core, s.dispatcher[0], verified);
    case RunIo(ok, order) =>
      IoFrame(s.core, s.io[0], ok, order);
      IoKeepsKnown(s.core.members, s.io[0]);
      IoEnqueuedKnown(s.core, s.io[0], ok, order);
      IoPostedKnown(s.core, s.io[0], ok, order);
    case _ =>
      EventFrame(s.core, e, invalidate);
      EventKeepsKnown(s.core, e, Happens(s.core, e, invalidate).core.members);
      EventEnqueuedKnown(s.core, e, invalidate);
      EventPostedKnown(s.core, e, invalidate);
  }

  // --------------------------------------------------------- dispatcher steps

  predicate Stale(c: Core, task: DispatcherTask) {
    task.Notify? && !c.scope.IsCurrent(task.token)
  }

  lemma OnlySlotsForward(c: Core, task: DispatcherTask, verified: bool)
    requires !task.PeerSlot?
    ensures var f := RunDispatcherTask(c, task, verified);
            && (forall t :: t in f.enqueued ==> !t.PeerSlot? && !t.DeliverSignal? && !t.Notify?)
            && (forall t :: t in f.posted ==> !t.ForgetPeer?)
  {
    hide Judge, Settle;
  }

  /** What a peer's slot enqueues. */
  function Forwarded(m: Members, q: PeerId, signal: Signal): seq<DispatcherTask> {
    if Released(m, q) || signal.Response? then []
    else if signal.Ready? then [Notify(m.known[q].token, Verify(q))]
    else [DeliverSignal(q, signal)]
  }

  lemma SlotForwards(c: Core, q: PeerId, signal: Signal)
    ensures var f := RunPeerSlot(c, q, signal);
            && f.enqueued == Forwarded(c.members, q, signal)
            && (forall p :: ForgetPeer(p) in f.posted ==> q == p && signal.Closing? && !Released(c.members, p))
  {
  }

  lemma ForwardedFlight(m: Members, q: PeerId, signal: Signal, p: PeerId, hop: Hop)
    requires p in m.known
    ensures InFlight(Forwarded(m, q, signal), p, hop)
         == if hop.ToSlot? || m.known[p].released then [] else Carried(PeerSlot(q, signal), p, ToSlot)
  {
    var enqueued := Forwarded(m, q, signal);
    if enqueued != [] {
      hide InFlight;
      InFlightOne(enqueued[0], p, hop);
    }
  }

  lemma SlotTask(c: Core, q: PeerId, signal: Signal, verified: bool)
    ensures RunDispatcherTask(c, PeerSlot(q, signal), verified) == RunPeerSlot(c, q, signal)
  {
  }

  /** A slot passes its signal on; the server's own task handles it. */
  lemma DispatcherEffectFlight(c: Core, task: DispatcherTask, verified: bool, p: PeerId)
    requires p in c.members.known
    ensures var f := RunDispatcherTask(c, task, verified);
            && InFlight(f.enqueued, p, ToUser) == (if c.members.known[p].released then [] else Carried(task, p, ToSlot))
            && InFlight(f.enqueued, p, ToSlot) == []
            && (ForgetPeer(p) in f.posted ==> Carried(task, p, ToSlot) == [Closing] && !c.members.known[p].released)
  {
    hide RunPeerSlot, RunDispatcherTask, InFlight, Forwarded;
    if task.PeerSlot? {
      SlotTask(c, task.peer, task.signal, verified);
      SlotForwards(c, task.peer, task.signal);
      ForwardedFlight(c.members, task.peer, task.signal, p, ToUser);
      ForwardedFlight(c.members, task.peer, task.signal, p, ToSlot);
    } else {
      OnlySlotsForward(c, task, verified);
      NothingInFlight(RunDispatcherTask(c, task, verified).enqueued, p, ToUser);
      NothingInFlight(RunDispatcherTask(c, task, verified).enqueued, p, ToSlot);
    }
  }

  lemma DispatcherRecord(c: Core, task: DispatcherTask, verified: bool, p: PeerId)
    requires p in c.members.known
    ensures var n := MembersAfterDispatcher(c, task, verified);
            && p in n.known
            && n.known[p].emitted == c.members.known[p].emitted
            && n.known[p].released == c.members.known[p].released
            && n.known[p].removed == c.members.known[p].removed
            && n.known[p].token == c.members.known[p].token
            && n.known[p].handled
               == c.members.known[p].handled + (if Stale(c, task) then [] else Carried(task, p, ToUser))
            && n.peers == c.members.peers
  {
  }

  /** A task for the user is not dropped for its token. */
  predicate Handles(c: Core, task: DispatcherTask, p: PeerId) {
    Stale(c, task) ==> Carried(task, p, ToUser) == []
  }

  /** What is told about a regular peer, and whether it stays exposed, follows its narrative. */
  lemma DispatcherNotes(s: Server, verified: bool, p: PeerId)
    requires s.dispatcher != [] && p in s.core.members.known
    requires KnownTask(s.core.members, s.dispatcher[0]) && Handles(s.core, s.dispatcher[0], p)
    requires !s.dispatcher[0].UserStop?
    requires PeerNarrated(s.core, p)
    requires MembersAfterDispatcher(s.core, s.dispatcher[0], verified).known[p].verdict != Some(false)
    ensures var d := RunDispatcherTask(s.core, s.dispatcher[0], verified).core;
            p in d.members.known && PeerNarrated(d, p)
  {
    hide RunDispatcherTask, NotesOf, Narrative, ExposureAfter;
    var c, task := s.core, s.dispatcher[0];
    DispatcherFrame(c, task, verified);
    var carried := Carried(task, p, ToUser);
    var told := ToldBy(c, task, verified);
    DispatcherRecord(c, task, verified, p);
    DispatcherEffectLog(c, task, verified);
    if carried != [] {
      assert carried == [carried[0]];
      NarrativeAppend(p, c.members.known[p].handled, carried[0]);
    }
    if told.Some? {
      NotesOfAppend(c.log, Entry(told.value, c.scope.generation), p);
    }
  }

  lemma PopFlight(q: seq<DispatcherTask>, added: seq<DispatcherTask>, p: PeerId, hop: Hop)
    requires q != []
    ensures InFlight(q, p, hop) == Carried(q[0], p, hop) + InFlight(q[1..], p, hop)
    ensures InFlight(q[1..] + added, p, hop) == InFlight(q[1..], p, hop) + InFlight(added, p, hop)
  {
    InFlightAppend(q[1..], added, p, hop);
  }

  lemma Regroup(handled: seq<Signal>, due: seq<Signal>, user: seq<Signal>, passed: seq<Signal>, slot: seq<Signal>)
    ensures handled + (due + user) + (passed + slot) == (handled + due) + (user + passed) + (slot + [])
    ensures forall x :: x in handled + (due + user) ==> x in (handled + due) + (user + passed)
  {
  }

  /** Running a task moves at most one signal one hop on, and loses none. */
  lemma DispatcherAccounts(s: Server, verified: bool, invalidate: bool, p: PeerId)
    requires s.dispatcher != [] && p in s.core.members.known && Handles(s.core, s.dispatcher[0], p)
    ensures var t := Step(s, RunDispatcher(verified), invalidate);
            && p in t.core.members.known
            && Accounted(t.core.members.known[p], t.dispatcher, p)
            == Accounted(s.core.members.known[p], s.dispatcher, p)
            && (ClosingSeen(s.core.members.known[p], s.dispatcher, p)
                || (ForgetPeer(p) in t.io && ForgetPeer(p) !in s.io)
                ==> ClosingSeen(t.core.members.known[p], t.dispatcher, p))
  {
    hide RunDispatcherTask, MembersAfterDispatcher, InFlight, Carried;
    var q, r := s.dispatcher, s.core.members.known[p];
    var f := RunDispatcherTask(s.core, q[0], verified);
    DispatcherFrame(s.core, q[0], verified);
    DispatcherRecord(s.core, q[0], verified, p);
    DispatcherEffectFlight(s.core, q[0], verified, p);
    PopFlight(q, f.enqueued, p, ToUser);
    PopFlight(q, f.enqueued, p, ToSlot);
    Regroup(r.handled, Carried(q[0], p, ToUser), InFlight(q[1..], p, ToUser),
            if r.released then [] else Carried(q[0], p, ToSlot),
            if r.released then [] else InFlight(q[1..], p, ToSlot));
    OldOrNew(s.io, f.posted);
  }

  lemma DispatcherUnrefused(s: Server, verified: bool, invalidate: bool, p: PeerId)
    requires s.dispatcher != [] && CoreTokens(s.core) && MembersSound(s.core.members)
    requires Unrefused(Step(s, RunDispatcher(verified), invalidate).core, p)
    requires TicketSound(s.core, s.dispatcher[0])
    ensures Unrefused(s.core, p) && !s.dispatcher[0].UserStop? && Handles(s.core, s.dispatcher[0], p)
  {
    hide RunDispatcherTask, NotesOf;
    DispatcherFrame(s.core, s.dispatcher[0], verified);
  }

  lemma DispatcherKeepsNarrated(s: Server, verified: bool, invalidate: bool, p: PeerId)
    requires s.dispatcher != [] && CoreTokens(s.core) && MembersSound(s.core.members)
    requires TicketSound(s.core, s.dispatcher[0]) && TasksKnown(s) && AllNarrated(s.core)
    requires Unrefused(Step(s, RunDispatcher(verified), invalidate).core, p)
    ensures PeerNarrated(Step(s, RunDispatcher(verified), invalidate).core, p)
  {
    hide RunDispatcherTask, MembersAfterDispatcher, TicketSound, CoreTokens, MembersSound, PeerNarrated, Handles,
         KnownTask;
    assert s.dispatcher[0] in s.dispatcher;
    DispatcherUnrefused(s, verified, invalidate, p);
    DispatcherFrame(s.core, s.dispatcher[0], verified);
    DispatcherNotes(s, verified, p);
  }

  lemma DispatcherKeepsAccounted(s: Server, verified: bool, invalidate: bool, p: PeerId)
    requires s.dispatcher != [] && CoreTokens(s.core) && MembersSound(s.core.members)
    requires TicketSound(s.core, s.dispatcher[0]) && AllAccounted(s)
    requires Regular(Step(s, RunDispatcher(verified), invalidate).core, p)
    ensures PeerAccounted(Step(s, RunDispatcher(verified), invalidate), p)
  {
    hide RunDispatcherTask, MembersAfterDispatcher, TicketSound, CoreTokens, MembersSound, Accounted, ClosingSeen,
         Handles, InFlight;
    var c, task := s.core, s.dispatcher[0];
    DispatcherUnrefused(s, verified, invalidate, p);
    DispatcherFrame(c, task, verified);
    DispatcherRecord(c, task, verified, p);
    assert Regular(c, p);
    DispatcherAccounts(s, verified, invalidate, p);
  }

  // -------------------------------------------------------- I/O and other steps

  /** What a step outside the dispatcher does to a regular peer: its new signals are
      queued for its slot, and it leaves the map only after its close was seen. */
  ghost predicate Extends(s: Server, t: Server, p: PeerId, added: seq<DispatcherTask>)
    requires p in s.core.members.known
  {
    && p in t.core.members.known
    && t.dispatcher == s.dispatcher + added
    && (ForgetPeer(p) in t.io ==> ForgetPeer(p) in s.io)
    && (p in s.core.members.peers && p !in t.core.members.peers ==> ForgetPeer(p) in s.io)
    && ExtendsRecord(s.core.members, t.core.members, p, added)
  }

  predicate ExtendsRecord(m: Members, n: Members, p: PeerId, added: seq<DispatcherTask>)
    requires p in m.known
  {
    && p in n.known
    && InFlight(added, p, ToUser) == []
    && n.known[p].handled == m.known[p].handled
    && n.known[p].emitted == m.known[p].emitted + InFlight(added, p, ToSlot)
    && (InFlight(added, p, ToSlot) != [] ==> !m.known[p].released && !n.known[p].released)
    && (m.known[p].released ==> n.known[p].released)
    && (n.known[p].released ==> m.known[p].released || p !in m.peers)
  }

  lemma ExtendingKeepsAccounted(s: Server, t: Server, p: PeerId, added: seq<DispatcherTask>)
    requires p in s.core.members.known && PeerAccounted(s, p) && Extends(s, t, p, added)
    ensures PeerAccounted(t, p)
  {
    hide InFlight;
    InFlightAppend(s.dispatcher, added, p, ToUser);
    InFlightAppend(s.dispatcher, added, p, ToSlot);
    var r, n := s.core.members.known[p], t.core.members.known[p];
    var handled, user, slot := r.handled, InFlight(s.dispatcher, p, ToUser), InFlight(s.dispatcher, p, ToSlot);
    assert handled + (user + []) + (slot + InFlight(added, p, ToSlot))
        == handled + user + slot + InFlight(added, p, ToSlot);
    assert handled + (user + []) == handled + user;
    assert handled + user + [] <= handled + user + slot;
    assert slot + [] == slot;
    assert r.emitted + [] == r.emitted;
  }

  lemma IoRecord(m: Members, task: IoTask, p: PeerId)
    requires p in m.known
    ensures var n := MembersAfterIo(m, task);
            && p in n.known
            && n.known[p].handled == m.known[p].handled && n.known[p].verdict == m.known[p].verdict
            && n.known[p].token == m.known[p].token && n.known[p].released == m.known[p].released
            && n.known[p].emitted
               == m.known[p].emitted
                  + (if task.PeerCloseTask? && task.peer == p && m.known[p].Open() then [Closing] else [])
            && (m.known[p].removed ==> n.known[p].removed) && n.exposed == m.exposed
            && (p in m.peers && p !in n.peers ==> n.known[p].removed || task == ForgetPeer(p) || task.StopTask?)
  {
  }

  lemma OnlyClosesSignal(c: Core, task: IoTask, ok: bool, order: seq<PeerId>)
    ensures var f := RunIoTask(c, task, ok, order);
            && (!task.PeerCloseTask? ==> forall t :: t in f.enqueued ==>
                  !t.PeerSlot? && !t.DeliverSignal? && TicketFor(t) == None)
            && (forall t :: t in f.posted ==> !t.ForgetPeer?)
  {
    hide CompleteAll, CompletePeer, CompleteOfPeer, Add, Expel, Emit, Enumerates;
  }

  lemma CloseSignals(c: Core, q: PeerId, notify: bool, p: PeerId)
    requires p in c.members.known && (notify ==> q != p)
    ensures var f := PeerCloses(c, q, notify);
            && InFlight(f.enqueued, p, ToUser) == []
            && InFlight(f.enqueued, p, ToSlot) == if q == p && c.members.known[p].Open() then [Closing] else []
  {
    hide InFlight, Emit;
    var completion := if notify then [DeliverSignal(q, Closing)] else [];
    InFlightOne(DeliverSignal(q, Closing), p, ToUser);
    InFlightOne(DeliverSignal(q, Closing), p, ToSlot);
    InFlightOne(PeerSlot(q, Closing), p, ToUser);
    InFlightOne(PeerSlot(q, Closing), p, ToSlot);
    NothingInFlight([], p, ToUser);
    NothingInFlight([], p, ToSlot);
    InFlightAppend([PeerSlot(q, Closing)], completion, p, ToUser);
    InFlightAppend([PeerSlot(q, Closing)], completion, p, ToSlot);
  }

  lemma CloseTask(c: Core, q: PeerId, notify: bool, ok: bool, order: seq<PeerId>)
    ensures RunIoTask(c, PeerCloseTask(q, notify), ok, order) == PeerCloses(c, q, notify)
  {
  }

  lemma IoEffectFlight(c: Core, task: IoTask, ok: bool, order: seq<PeerId>, p: PeerId)
    requires p in c.members.known && KnownIoTask(c.members, task) && !c.members.known[p].removed
    ensures var f := RunIoTask(c, task, ok, order);
            && InFlight(f.enqueued, p, ToUser) == []
            && InFlight(f.enqueued, p, ToSlot)
               == if task.PeerCloseTask? && task.peer == p && c.members.known[p].Open() then [Closing] else []
  {
    hide RunIoTask, InFlight, PeerCloses;
    var f := RunIoTask(c, task, ok, order);
    if task.PeerCloseTask? {
      CloseTask(c, task.peer, task.notify, ok, order);
      CloseSignals(c, task.peer, task.notify, p);
    } else {
      OnlyClosesSignal(c, task, ok, order);
      NothingInFlight(f.enqueued, p, ToUser);
      NothingInFlight(f.enqueued, p, ToSlot);
    }
  }

  lemma IoKeepsAccounted(s: Server, ok: bool, order: seq<PeerId>, invalidate: bool, p: PeerId)
    requires CleanupsInOrder(s) && NoPeerUnclosed(s) && TasksKnown(s) && AllAccounted(s) && Enabled(s, RunIo(ok, order))
    requires MembersSound(s.core.members) && Regular(Step(s, RunIo(ok, order), invalidate).core, p)
    ensures PeerAccounted(Step(s, RunIo(ok, order), invalidate), p)
  {
    hide RunIoTask, MembersAfterIo, InFlight, PeerAccounted, ListeningAfterIo, StopsFirst, NothingStale, Enumerates;
    var c, task := s.core, s.io[0];
    var f := RunIoTask(c, task, ok, order);
    assert task in s.io;
    IoFrame(c, task, ok, order);
    IoMembersPeers(c.members, task);
    IoRecord(c.members, task, p);
    assert Regular(c, p);
    IoEffectFlight(c, task, ok, order, p);
    OnlyClosesSignal(c, task, ok, order);
    OldOrNew(s.io[1..], f.posted);
    OldOrNew(s.io, []);
    ExtendingKeepsAccounted(s, Step(s, RunIo(ok, order), invalidate), p, f.enqueued);
  }

  /** The signal an event makes peer `p` enqueue. */
  function EventSignal(m: Members, e: Event, p: PeerId): seq<Signal>
    requires p in m.known
  {
    if e.PeerEmits? && e.peer == p && !e.signal.Response? then [e.signal]
    else if e.PeerCloseRuns? && e.peer == p && m.known[p].Open() then [Closing]
    else []
  }

  lemma EventRecord(c: Core, e: Event, n: Members, p: PeerId)
    requires p in c.members.known
    requires e.PeerEmits? || e.PeerDestroyed? ==> e.peer in c.members.known
    requires MembersSound(c.members) && MembersAfterEvent(c, e, n)
    ensures var m := c.members;
            && p in n.known
            && n.known[p].handled == m.known[p].handled && n.known[p].verdict == m.known[p].verdict
            && n.known[p].token == m.known[p].token
            && n.known[p].released == (m.known[p].released || e == PeerDestroyed(p))
            && n.known[p].emitted == m.known[p].emitted + EventSignal(m, e, p)
            && (m.known[p].removed ==> n.known[p].removed) && n.exposed == m.exposed
            && (p in m.peers && p !in n.peers ==> n.known[p].removed)
  {
  }

  lemma OnlyPeersSignal(c: Core, e: Event, invalidate: bool)
    requires e.PeerEmits? || e.PeerDestroyed? ==> e.peer in c.members.known
    ensures var f := Happens(c, e, invalidate);
            && (!e.PeerEmits? && !e.PeerCloseRuns? ==> forall t :: t in f.enqueued ==>
                  !t.PeerSlot? && !t.DeliverSignal? && TicketFor(t) == None)
            && (e.PeerEmits? ==> f.enqueued == [PeerSlot(e.peer, e.signal)])
            && (forall t :: t in f.posted ==> !t.ForgetPeer?)
  {
    hide CompletePeer, TimerRuns, TimesOut, Expel, Adopt, AcceptNext, Emit;
  }

  lemma CloseEvent(c: Core, q: PeerId, invalidate: bool)
    ensures Happens(c, PeerCloseRuns(q), invalidate) == PeerCloses(c, q, false)
  {
  }

  lemma EventEffectFlight(c: Core, e: Event, invalidate: bool, p: PeerId)
    requires p in c.members.known
    requires e.PeerEmits? || e.PeerDestroyed? ==> e.peer in c.members.known
    ensures var f := Happens(c, e, invalidate);
            InFlight(f.enqueued, p, ToUser) == [] && InFlight(f.enqueued, p, ToSlot) == EventSignal(c.members, e, p)
  {
    hide Happens, InFlight, PeerCloses;
    var f := Happens(c, e, invalidate);
    OnlyPeersSignal(c, e, invalidate);
    if e.PeerCloseRuns? {
      CloseEvent(c, e.peer, invalidate);
      CloseSignals(c, e.peer, false, p);
    } else if e.PeerEmits? {
      InFlightOne(PeerSlot(e.peer, e.signal), p, ToUser);
      InFlightOne(PeerSlot(e.peer, e.signal), p, ToSlot);
    } else {
      NothingInFlight(f.enqueued, p, ToUser);
      NothingInFlight(f.enqueued, p, ToSlot);
    }
  }

  /** A peer just accepted has signalled nothing, and nobody has heard of it. */
  lemma AcceptedPeerAccounted(s: Server, t: Server, p: PeerId)
    requires p !in s.core.members.known && p in t.core.members.peers && p in t.core.members.known
    requires var r := t.core.members.known[p]; r.emitted == [] && r.handled == []
    requires !t.core.members.known[p].released && t.dispatcher == s.dispatcher
    requires TasksKnown(s) && ForgetPeer(p) !in t.io
    ensures PeerAccounted(t, p)
  {
    hide InFlight, KnownIoTask;
    NothingInFlight(s.dispatcher, p, ToUser);
    NothingInFlight(s.dispatcher, p, ToSlot);
  }

  lemma AdoptedRecord(c: Core, e: Event, n: Members, p: PeerId)
    requires e.PeerEmits? || e.PeerDestroyed? ==> e.peer in c.members.known
    requires MembersSound(c.members) && MembersAfterEvent(c, e, n)
    requires p !in c.members.known && p in n.known
    ensures e.AcceptCompletes? && p in n.peers && p !in n.exposed
    ensures n.known[p].emitted == [] && n.known[p].handled == [] && !n.known[p].released
    ensures !n.known[p].removed && n.known[p].verdict == None
  {
  }

  lemma EventKeepsAccounted(s: Server, e: Event, invalidate: bool, p: PeerId)
    requires NoPeerUnclosed(s) && TasksKnown(s) && AllAccounted(s)
    requires MembersSound(s.core.members) && Enabled(s, e) && !e.RunDispatcher? && !e.RunIo?
    requires Regular(Step(s, e, invalidate).core, p)
    ensures PeerAccounted(Step(s, e, invalidate), p)
  {
    hide Happens, MembersAfterEvent, ListeningAfterEvent, PeerAccounted, MembersSound, TasksKnown, NoPeerUnclosed;
    var t := Step(s, e, invalidate);
    if p in s.core.members.known {
      KnownPeerAccounted(s, e, invalidate, p);
    } else {
      EventFrame(s.core, e, invalidate);
      AdoptedRecord(s.core, e, t.core.members, p);
      AdoptedEvent(s, e, invalidate, p);
      AcceptedPeerAccounted(s, t, p);
    }
  }

  lemma KnownPeerAccounted(s: Server, e: Event, invalidate: bool, p: PeerId)
    requires NoPeerUnclosed(s) && AllAccounted(s) && p in s.core.members.known
    requires MembersSound(s.core.members) && Enabled(s, e) && !e.RunDispatcher? && !e.RunIo?
    requires Regular(Step(s, e, invalidate).core, p)
    ensures PeerAccounted(Step(s, e, invalidate), p)
  {
    hide Happens, MembersAfterEvent, ListeningAfterEvent, InFlight, PeerAccounted, MembersSound;
    var t := Step(s, e, invalidate);
    var f := Happens(s.core, e, invalidate);
    EventFrame(s.core, e, invalidate);
    OldOrNew(s.io, f.posted);
    OnlyPeersSignal(s.core, e, invalidate);
    EventRecord(s.core, e, t.core.members, p);
    assert Regular(s.core, p);
    EventEffectFlight(s.core, e, invalidate, p);
    ExtendingKeepsAccounted(s, t, p, f.enqueued);
  }

  lemma AdoptedEvent(s: Server, e: Event, invalidate: bool, p: PeerId)
    requires Enabled(s, e) && e.AcceptCompletes? && TasksKnown(s) && p !in s.core.members.known
    requires p in Step(s, e, invalidate).core.members.known
    ensures var t := Step(s, e, invalidate); t.dispatcher == s.dispatcher && t.io == s.io && ForgetPeer(p) !in t.io
  {
  }

  lemma StepKeepsAccounted(s: Server, e: Event, invalidate: bool)
    requires CleanupsInOrder(s) && NoPeerUnclosed(s) && CoreTokens(s.core) && MembersSound(s.core.members)
    requires LifecycleInvariant(s) && TasksKnown(s) && AllAccounted(s) && Enabled(s, e)
    ensures AllAccounted(Step(s, e, invalidate))
  {
    hide CleanupsInOrder, NoPeerUnclosed, CoreTokens, MembersSound, TasksKnown, AllAccounted, PeerAccounted, Regular,
         PeerStage, TicketSound, TicketsUnique, ExposedCurrent, EntryInSession, Step, MayEmit, Enumerates;
    var t := Step(s, e, invalidate);
    forall p | Regular(t.core, p)
      ensures p in t.core.members.known && PeerAccounted(t, p)
    {
      RegularKnown(t.core, p);
      match e
      case RunDispatcher(verified) =>
        assert s.dispatcher[0] in s.dispatcher;
        DispatcherKeepsAccounted(s, verified, invalidate, p);
      case RunIo(ok, order) => IoKeepsAccounted(s, ok, order, invalidate, p);
      case _ => EventKeepsAccounted(s, e, invalidate, p);
    }
    AccountedForAll(t);
  }

  lemma RegularKnown(c: Core, p: PeerId)
    requires Regular(c, p)
    ensures p in c.members.known
  {
  }

  lemma AccountedForAll(t: Server)
    requires forall p :: Regular(t.core, p) ==> p in t.core.members.known && PeerAccounted(t, p)
    ensures AllAccounted(t)
  {
    hide PeerAccounted;
  }

  /** Outside the dispatcher nothing is told, handled or exposed. */
  lemma OtherStepsKeepNarrated(s: Server, e: Event, invalidate: bool, p: PeerId)
    requires MembersSound(s.core.members) && PeerStage(s.core, p) && AllNarrated(s.core)
    requires Enabled(s, e) && !e.RunDispatcher? && Unrefused(Step(s, e, invalidate).core, p)
    ensures PeerNarrated(Step(s, e, invalidate).core, p)
  {
    hide RunIoTask, Happens, MembersAfterIo, MembersAfterEvent, ListeningAfterIo, ListeningAfterEvent, NotesOf,
         MembersSound, MayEmit, Enumerates, Lifecycle, Connected;
    var t := Step(s, e, invalidate);
    if e.RunIo? {
      IoFrame(s.core, s.io[0], e.ok, e.order);
      IoMembersPeers(s.core.members, s.io[0]);
      IoRecord(s.core.members, s.io[0], p);
      assert Unrefused(s.core, p);
    } else {
      EventFrame(s.core, e, invalidate);
      if p in s.core.members.known {
        EventRecord(s.core, e, t.core.members, p);
        assert Unrefused(s.core, p);
      } else {
        AdoptedRecord(s.core, e, t.core.members, p);
      }
    }
  }

  lemma StepKeepsNarrated(s: Server, e: Event, invalidate: bool)
    requires CoreTokens(s.core) && MembersSound(s.core.members)
    requires LifecycleInvariant(s) && TasksKnown(s) && AllNarrated(s.core) && Enabled(s, e)
    ensures AllNarrated(Step(s, e, invalidate).core)
  {
    hide CoreTokens, MembersSound, TasksKnown, AllNarrated, PeerNarrated, Unrefused, PeerStage, TicketSound,
         TicketsUnique, ExposedCurrent, EntryInSession, Step, MayEmit, Enumerates;
    var t := Step(s, e, invalidate);
    forall p | Unrefused(t.core, p)
      ensures p in t.core.members.known && PeerNarrated(t.core, p)
    {
      UnrefusedKnown(t.core, p);
      if e.RunDispatcher? {
        assert s.dispatcher[0] in s.dispatcher;
        DispatcherKeepsNarrated(s, e.verified, invalidate, p);
      } else {
        OtherStepsKeepNarrated(s, e, invalidate, p);
      }
    }
    NarratedForAll(t.core);
  }

  lemma UnrefusedKnown(c: Core, p: PeerId)
    requires Unrefused(c, p)
    ensures p in c.members.known
  {
  }

  lemma NarratedForAll(c: Core)
    requires forall p :: Unrefused(c, p) ==> p in c.members.known && PeerNarrated(c, p)
    ensures AllNarrated(c)
  {
    hide PeerNarrated;
  }

  // ------------------------------------------------------------ local closes

  /** A local close is on its way to the user until a close was handled, but never before
      the peer was closed; a refused peer's close is on its way until it left the map. */
  ghost predicate PeerEnds(s: Server, p: PeerId)
    requires p in s.core.members.known
  {
    var r := s.core.members.known[p];
    && (r.removed && Closing !in r.handled ==>
          PeerCloseTask(p, true) in s.io || DeliverSignal(p, Closing) in s.dispatcher)
    && (Closing in r.handled || DeliverSignal(p, Closing) in s.dispatcher ==> Closing in r.emitted)
    && (r.verdict == Some(false) && p in s.core.members.peers ==> ClosePeerRequest(p) in s.io)
  }

  ghost predicate AllPeersEnd(s: Server) {
    forall p :: p in s.core.members.known ==> PeerEnds(s, p)
  }

  lemma DispatcherEnds(c: Core, task: DispatcherTask, verified: bool, p: PeerId)
    requires p in c.members.known
    ensures var n := MembersAfterDispatcher(c, task, verified);
            && p in n.known && n.known[p].removed == c.members.known[p].removed && n.peers == c.members.peers
            && n.known[p].emitted == c.members.known[p].emitted
            && (Closing in n.known[p].handled <==>
                  Closing in c.members.known[p].handled || task == DeliverSignal(p, Closing))
            && (DeliverSignal(p, Closing) in RunDispatcherTask(c, task, verified).enqueued ==>
                  task == PeerSlot(p, Closing))
            && (n.known[p].verdict == Some(false) && c.members.known[p].verdict != Some(false) ==>
                  ClosePeerRequest(p) in RunDispatcherTask(c, task, verified).posted)
  {
  }

  lemma IoEnds(c: Core, task: IoTask, ok: bool, order: seq<PeerId>, p: PeerId)
    requires p in c.members.known
    ensures var f := RunIoTask(c, task, ok, order);
            var m, n := c.members, MembersAfterIo(c.members, task);
            && p in n.known && n.known[p].handled == m.known[p].handled && n.known[p].verdict == m.known[p].verdict
            && n.peers <= m.peers && (Closing in m.known[p].emitted ==> Closing in n.known[p].emitted)
            && (DeliverSignal(p, Closing) in f.enqueued ==> Closing in n.known[p].emitted)
            && (n.known[p].removed && !m.known[p].removed ==> PeerCloseTask(p, true) in f.posted)
            && (task == PeerCloseTask(p, true) ==> DeliverSignal(p, Closing) in f.enqueued)
            && (task == ClosePeerRequest(p) ==> p !in n.peers)
  {
    hide CompleteAll, CompletePeer, CompleteOfPeer, Add, Enumerates;
  }

  lemma EventPostsClose(c: Core, e: Event, invalidate: bool, p: PeerId)
    requires p in c.members.known && (e.PeerEmits? || e.PeerDestroyed? ==> e.peer in c.members.known)
    ensures var f := Happens(c, e, invalidate);
            p in f.core.members.known && f.core.members.known[p].removed && !c.members.known[p].removed ==>
              PeerCloseTask(p, true) in f.posted
  {
    hide CompletePeer, TimerRuns, TimesOut, AcceptNext;
  }

  lemma EventDeliversNothing(c: Core, e: Event, invalidate: bool)
    requires e.PeerEmits? || e.PeerDestroyed? ==> e.peer in c.members.known
    ensures forall t :: t in Happens(c, e, invalidate).enqueued ==> !t.DeliverSignal?
  {
    hide CompletePeer, TimerRuns, TimesOut, AcceptNext, Adopt, Expel, Emit;
  }

  lemma EventEnds(c: Core, e: Event, invalidate: bool, p: PeerId)
    requires e.PeerEmits? || e.PeerDestroyed? ==> e.peer in c.members.known
    requires MembersSound(c.members)
    ensures var f := Happens(c, e, invalidate);
            var m, n := c.members, f.core.members;
            && (p in m.known ==>
                  && p in n.known
                  && n.known[p].handled == m.known[p].handled && n.known[p].verdict == m.known[p].verdict
                  && (p in n.peers ==> p in m.peers)
                  && (Closing in m.known[p].emitted ==> Closing in n.known[p].emitted)
                  && (n.known[p].removed && !m.known[p].removed ==> PeerCloseTask(p, true) in f.posted))
            && DeliverSignal(p, Closing) !in f.enqueued
            && (p !in m.known && p in n.known ==>
                  !n.known[p].removed && n.known[p].verdict == None && n.known[p].handled == [])
  {
    hide Happens, MembersAfterEvent, ListeningAfterEvent;
    var n := Happens(c, e, invalidate).core.members;
    EventFrame(c, e, invalidate);
    EventDeliversNothing(c, e, invalidate);
    EventMembersPeers(c, e, n);
    hide MembersSound;
    if p in c.members.known {
      EventRecord(c, e, n, p);
      EventPostsClose(c, e, invalidate, p);
      AdoptKeepsOthers(c, e, n, p);
    } else if p in n.known {
      AdoptedRecord(c, e, n, p);
    }
  }

  lemma AdoptKeepsOthers(c: Core, e: Event, n: Members, p: PeerId)
    requires MembersSound(c.members) && p in c.members.known
    ensures e.AcceptCompletes? && n == Adopt(c.members, e.op.token) ==> (p in n.peers ==> p in c.members.peers)
  {
  }

  lemma StepKeepsEnds(s: Server, e: Event, invalidate: bool)
    requires AllPeersEnd(s) && NoPeerUnclosed(s) && TasksKnown(s) && MembersSound(s.core.members) && Enabled(s, e)
    ensures AllPeersEnd(Step(s, e, invalidate))
  {
    hide RunDispatcherTask, RunIoTask, Happens, MembersAfterDispatcher, MembersAfterIo, MembersAfterEvent,
         ListeningAfterIo, ListeningAfterEvent, MembersSound, MayEmit, Enumerates;
    var t := Step(s, e, invalidate);
    StepQueues(s, e, invalidate);
    forall p | p in t.core.members.known
      ensures PeerEnds(t, p)
    {
      match e
      case RunDispatcher(verified) =>
        DispatcherFrame(s.core, s.dispatcher[0], verified);
        DispatcherMembersPeers(s.core, s.dispatcher[0], verified);
        DispatcherEnds(s.core, s.dispatcher[0], verified, p);
        assert s.dispatcher[0] in s.dispatcher;
      case RunIo(ok, order) =>
        IoFrame(s.core, s.io[0], ok, order);
        IoMembersPeers(s.core.members, s.io[0]);
        IoEnds(s.core, s.io[0], ok, order, p);
      case _ => EventEnds(s.core, e, invalidate, p);
    }
  }
}
