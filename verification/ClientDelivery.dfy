/** What a connection hands over reaches the client's user unchanged and in order:
    two dispatcher hops and one I/O hop behave as one FIFO per connection. */
module ClientDelivery {
  import opened Common
  import opened Queues
  import opened NotificationScope
  import opened Requests
  import opened ClientModel
  import opened ClientProofs
  import opened ClientProgress
  import opened ClientOrder
  import opened ClientTheorems

  /** The signals on their way to the user; answers go to the requests instead. */
  predicate IsTold(signal: Signal) {
    !signal.Response?
  }

  /** The data, request or error of connection `p` that a note tells. */
  function Told(note: UserNote, p: Handle): seq<Signal> {
    match note
    case Received(q, data) => if q == p then [Data(data)] else []
    case RequestReceived(q, id, data) => if q == p then [Request(id, data)] else []
    case ErrorOccurred(q, code) => if q == p then [Error(code)] else []
    case _ => []
  }

  function ToldOf(log: seq<Entry>, p: Handle): seq<Signal>
    decreases |log|
  {
    if log == [] then [] else ToldOf(log[..|log| - 1], p) + Told(log[|log| - 1].note, p)
  }

  function Of(emission: Emission, p: Handle): seq<Signal> {
    if emission.peer == p && IsTold(emission.signal) then [emission.signal] else []
  }

  /** What connection `p` signalled, in order. */
  function EmittedBy(emitted: seq<Emission>, p: Handle): seq<Signal>
    decreases |emitted|
  {
    if emitted == [] then [] else EmittedBy(emitted[..|emitted| - 1], p) + Of(emitted[|emitted| - 1], p)
  }

  // --------------------------------------------------------------- in flight

  /** First to the peer's slot, then over the I/O queue, then to the user. */
  datatype Hop = ToSlot | ToUser

  function Carried(task: DispatcherTask, p: Handle, hop: Hop): seq<Signal> {
    match task
    case SignalSlot(q, signal) => if hop.ToSlot? && q == p && IsTold(signal) then [signal] else []
    case Notify(_, Deliver(note)) => if hop.ToUser? then Told(note, p) else []
    case _ => []
  }

  function CarriedIo(task: IoTask, p: Handle): seq<Signal> {
    if task.ForwardSignal? && task.peer == p && IsTold(task.signal) then [task.signal] else []
  }

  function InFlight(q: seq<DispatcherTask>, p: Handle, hop: Hop): seq<Signal>
    decreases |q|
  {
    if q == [] then [] else Carried(q[0], p, hop) + InFlight(q[1..], p, hop)
  }

  function InIo(io: seq<IoTask>, p: Handle): seq<Signal>
    decreases |io|
  {
    if io == [] then [] else CarriedIo(io[0], p) + InIo(io[1..], p)
  }

  lemma {:induction false} InFlightAppend(q: seq<DispatcherTask>, added: seq<DispatcherTask>, p: Handle, hop: Hop)
    ensures InFlight(q + added, p, hop) == InFlight(q, p, hop) + InFlight(added, p, hop)
    decreases |q|
  {
    if q == [] {
      assert q + added == added;
    } else {
      assert (q + added)[1..] == q[1..] + added;
      InFlightAppend(q[1..], added, p, hop);
    }
  }

  lemma {:induction false} InIoAppend(io: seq<IoTask>, added: seq<IoTask>, p: Handle)
    ensures InIo(io + added, p) == InIo(io, p) + InIo(added, p)
    decreases |io|
  {
    if io == [] {
      assert io + added == added;
    } else {
      assert (io + added)[1..] == io[1..] + added;
      InIoAppend(io[1..], added, p);
    }
  }

  lemma AtMostOne(q: seq<DispatcherTask>, io: seq<IoTask>, p: Handle)
    requires |q| <= 1 && |io| <= 1
    ensures forall hop :: InFlight(q, p, hop) == if q == [] then [] else Carried(q[0], p, hop)
    ensures InIo(io, p) == if io == [] then [] else CarriedIo(io[0], p)
  {
    if q != [] {
      assert q[1..] == [];
    }
    if io != [] {
      assert io[1..] == [];
    }
  }

  lemma ToldAppend(log: seq<Entry>, entry: Entry, p: Handle)
    ensures ToldOf(log + [entry], p) == ToldOf(log, p) + Told(entry.note, p)
  {
    assert (log + [entry])[..|log|] == log;
  }

  lemma EmittedAppend(emitted: seq<Emission>, emission: Emission, p: Handle)
    ensures EmittedBy(emitted + [emission], p) == EmittedBy(emitted, p) + Of(emission, p)
  {
    assert (emitted + [emission])[..|emitted|] == emitted;
  }

  // -------------------------------------------------------------- accounting

  /** Notes on their way that will be told. */
  function Due(s: Client, p: Handle): seq<Signal> {
    if s.core.scope.IsCurrent(p.token) then InFlight(s.dispatcher, p, ToUser) else []
  }

  predicate InSession(c: Core, p: Handle) {
    c.session.peer == Some(p) && c.scope.IsCurrent(p.token)
  }

  /** What was told and will be told is a prefix of what was signalled; for the current
      connection nothing is missing between the two. */
  ghost predicate PeerAccounted(s: Client, p: Handle) {
    var emitted, told, notes := EmittedBy(s.core.emitted, p), ToldOf(s.core.log, p), InFlight(s.dispatcher, p, ToUser);
    && told + Due(s, p) <= emitted
    && (InSession(s.core, p) ==> told + notes + InIo(s.io, p) + InFlight(s.dispatcher, p, ToSlot) == emitted)
  }

  predicate ClosedTold(log: seq<Entry>, p: Handle) {
    exists entry :: entry in log && entry.note == Closed(p)
  }

  /** A connection given up for its own `closed`: in its session that note was told or is
      queued, and what was signalled before the close is told or queued; once the note was
      told, so was all of that. */
  ghost predicate EndAccounted(s: Client, p: Handle) {
    var emitted, told := EmittedBy(s.core.emitted, p), ToldOf(s.core.log, p);
    && s.core.session.peer != Some(p)
    && (forall task :: task in s.dispatcher && Tells(task, Closed(p)) ==> task.token == p.token)
    && (s.core.scope.IsCurrent(p.token) ==>
          && Closing in emitted && told + InFlight(s.dispatcher, p, ToUser) == Before(emitted, Closing)
          && (ClosedTold(s.core.log, p) || Notify(p.token, Deliver(Closed(p))) in s.dispatcher))
    && (ClosedTold(s.core.log, p) ==> Closing in emitted && told == Before(emitted, Closing))
  }

  ghost predicate EmittedKnown(c: Core) {
    forall emission :: emission in c.emitted ==> emission.peer in c.session.peers
  }

  ghost predicate DeliveryInvariant(s: Client) {
    && EmittedKnown(s.core) && s.core.session.ended <= s.core.session.peers
    && (forall p :: p in s.core.session.peers ==> PeerAccounted(s, p))
    && (forall p :: p in s.core.session.ended ==> EndAccounted(s, p))
  }

  // --------------------------------------------------------- dispatcher steps

  lemma DispatcherEffectFlight(c: Core, task: DispatcherTask, verified: bool, p: Handle)
    ensures var f := RunDispatcherTask(c, task, verified);
            && InFlight(f.enqueued, p, ToUser) == [] && InFlight(f.enqueued, p, ToSlot) == []
            && InIo(f.posted, p) == Carried(task, p, ToSlot)
            && f.core.emitted == c.emitted
  {
    hide InFlight, InIo;
    var f := RunDispatcherTask(c, task, verified);
    AtMostOne(f.enqueued, f.posted, p);
  }

  lemma DispatcherEffectTold(c: Core, task: DispatcherTask, verified: bool, p: Handle)
    ensures ToldOf(RunDispatcherTask(c, task, verified).core.log, p)
         == ToldOf(c.log, p) + if task.Notify? && c.scope.IsCurrent(task.token) then Carried(task, p, ToUser) else []
  {
    hide ToldOf;
    if task.Notify? && task.notification.Deliver? {
      ToldAppend(c.log, Entry(task.notification.note, c.scope.generation), p);
    }
  }

  lemma PopFlight(q: seq<DispatcherTask>, added: seq<DispatcherTask>, p: Handle, hop: Hop)
    requires q != []
    ensures InFlight(q, p, hop) == Carried(q[0], p, hop) + InFlight(q[1..], p, hop)
    ensures InFlight(q[1..] + added, p, hop) == InFlight(q[1..], p, hop) + InFlight(added, p, hop)
  {
    InFlightAppend(q[1..], added, p, hop);
  }

  lemma Regroup(
    told: seq<Signal>, due: seq<Signal>, user: seq<Signal>, io: seq<Signal>, passed: seq<Signal>, slot: seq<Signal>
  )
    ensures told + (due + user) + io + (passed + slot) == (told + due) + (user + []) + (io + passed) + (slot + [])
    ensures told + (due + user) == (told + due) + (user + [])
  {
  }

  /** A note about `p` is told under `p`'s token. */
  lemma NoteToken(s: Client, p: Handle)
    requires s.dispatcher != [] && NoteSound(s, s.dispatcher[0]) && Carried(s.dispatcher[0], p, ToUser) != []
    ensures s.dispatcher[0].token == p.token
  {
    hide ConnectedTaken;
  }

  lemma DispatcherKeepsAccounted(s: Client, verified: bool, invalidate: bool, p: Handle)
    requires PeerAccounted(s, p) && s.dispatcher != [] && NoteSound(s, s.dispatcher[0])
    requires p.token <= s.core.scope.generation && (p.token == s.core.scope.generation ==> s.core.scope.running)
    ensures PeerAccounted(Step(s, RunDispatcher(verified), invalidate), p)
  {
    hide RunDispatcherTask, InFlight, InIo, ToldOf, EmittedBy, NoteSound, Carried, CarriedIo;
    var c, q := s.core, s.dispatcher;
    var f := RunDispatcherTask(c, q[0], verified);
    DispatcherEffectLog(c, q[0], verified);
    DispatcherEffectRunning(c, q[0], verified);
    DispatcherEffectFlight(c, q[0], verified, p);
    DispatcherEffectTold(c, q[0], verified, p);
    SlotCarriesNoNote(q[0], p);
    PopFlight(q, f.enqueued, p, ToUser);
    PopFlight(q, f.enqueued, p, ToSlot);
    InIoAppend(s.io, f.posted, p);
    if Carried(q[0], p, ToUser) != [] {
      NoteToken(s, p);
    }
    Regroup(ToldOf(c.log, p), Carried(q[0], p, ToUser), InFlight(q[1..], p, ToUser), InIo(s.io, p),
            Carried(q[0], p, ToSlot), InFlight(q[1..], p, ToSlot));
  }

  lemma SlotCarriesNoNote(task: DispatcherTask, p: Handle)
    ensures Carried(task, p, ToUser) != [] ==> task.Notify?
  {
  }

  // -------------------------------------------------------- I/O and other steps

  /** The signal the close of connection `p` makes it emit. */
  function CloseSignal(c: Core, q: Handle, p: Handle): seq<Signal> {
    if q == p && p in c.session.live then [Closing] else []
  }

  function TaskSignal(c: Core, task: IoTask, p: Handle): seq<Signal> {
    if task.ClosePeerTask? then CloseSignal(c, task.peer, p) else []
  }

  /** A forwarded `closed` ends its connection instead of becoming a note of its own kind. */
  function Passed(c: Core, task: IoTask, p: Handle): seq<Signal> {
    if c.session.peer == Some(p) && !(task.ForwardSignal? && task.signal.Closing?) then CarriedIo(task, p) else []
  }

  lemma IoEffectFlight(c: Core, task: IoTask, endpointOk: bool, p: Handle)
    ensures var f := RunIoTask(c, task, endpointOk);
            && InFlight(f.enqueued, p, ToUser) == Passed(c, task, p)
            && InFlight(f.enqueued, p, ToSlot) == TaskSignal(c, task, p) && InIo(f.posted, p) == []
  {
    hide InFlight, InIo, CompleteAll, Complete, Add;
    var f := RunIoTask(c, task, endpointOk);
    AtMostOne(f.enqueued, f.posted, p);
  }

  function TaskEmission(c: Core, task: IoTask): seq<Emission> {
    if task.ClosePeerTask? && task.peer in c.session.live then [Emission(task.peer, Closing)] else []
  }

  predicate EndsPeer(c: Core, task: IoTask, p: Handle) {
    task == ForwardSignal(p, Closing) && c.session.peer == Some(p)
  }

  lemma IoEffectRest(c: Core, task: IoTask, endpointOk: bool)
    ensures var f := RunIoTask(c, task, endpointOk);
            && f.core.emitted == c.emitted + TaskEmission(c, task) && f.core.log == c.log && f.core.scope == c.scope
            && (f.core.session.peer == c.session.peer || f.core.session.peer == None
                || (f.core.session.peer.value.id == c.session.nextId && !task.ForwardSignal?))
            && (forall p :: p in f.core.session.ended <==> p in c.session.ended || EndsPeer(c, task, p))
            && (forall p :: EndsPeer(c, task, p) ==>
                  f.core.session.peer == None && f.enqueued == [Notify(p.token, Deliver(Closed(p)))])
            && (forall t, p :: t in f.enqueued && Tells(t, Closed(p)) ==> c.session.peer == Some(p))
  {
    hide CompleteAll, Complete, Add;
  }

  lemma EmissionsGrow(emitted: seq<Emission>, added: seq<Emission>, p: Handle)
    requires |added| <= 1
    ensures EmittedBy(emitted + added, p) == EmittedBy(emitted, p) + (if added == [] then [] else Of(added[0], p))
  {
    if added == [] {
      assert emitted + added == emitted;
    } else {
      EmittedAppend(emitted, added[0], p);
      assert emitted + added == emitted + [added[0]];
    }
  }

  lemma IoKeepsAccounted(s: Client, endpointOk: bool, invalidate: bool, p: Handle)
    requires PeerAccounted(s, p) && p in s.core.session.peers && HandlesKnown(s) && s.io != []
    ensures PeerAccounted(Step(s, RunIo(endpointOk), invalidate), p)
  {
    hide RunIoTask, InFlight, InIo, ToldOf, EmittedBy;
    var c, io := s.core, s.io;
    var f := RunIoTask(c, io[0], endpointOk);
    IoEffectFlight(c, io[0], endpointOk, p);
    IoEffectRest(c, io[0], endpointOk);
    InFlightAppend(s.dispatcher, f.enqueued, p, ToUser);
    InFlightAppend(s.dispatcher, f.enqueued, p, ToSlot);
    InIoAppend(io[1..], f.posted, p);
    IoHead(io, p);
    EmissionsGrow(c.emitted, TaskEmission(c, io[0]), p);
    Forwarded(ToldOf(c.log, p), InFlight(s.dispatcher, p, ToUser), CarriedIo(io[0], p), InIo(io[1..], p),
              InFlight(s.dispatcher, p, ToSlot), TaskSignal(c, io[0], p));
  }

  lemma IoHead(io: seq<IoTask>, p: Handle)
    requires io != []
    ensures InIo(io, p) == CarriedIo(io[0], p) + InIo(io[1..], p)
  {
  }

  lemma Forwarded(
    told: seq<Signal>, user: seq<Signal>, passed: seq<Signal>, io: seq<Signal>, slot: seq<Signal>, added: seq<Signal>
  )
    ensures told + user + (passed + io) + slot + added == told + (user + passed) + (io + []) + (slot + added)
    ensures told + (user + passed) <= told + user + (passed + io) + slot + added
    ensures told + (user + []) == told + user
  {
    assert told + user + (passed + io) + slot + added == told + (user + passed) + (io + slot + added);
  }

  /** The signal an event makes connection `p` emit. */
  function EventSignal(c: Core, e: Event, p: Handle): seq<Signal> {
    match e
    case PeerEmits(q, signal) => Of(Emission(q, signal), p)
    case PeerCloseRuns(q) => CloseSignal(c, q, p)
    case _ => []
  }

  function EventEmission(c: Core, e: Event): seq<Emission> {
    match e
    case PeerEmits(q, signal) => [Emission(q, signal)]
    case PeerCloseRuns(q) => if q in c.session.live then [Emission(q, Closing)] else []
    case _ => []
  }

  lemma EventEffectFlight(c: Core, e: Event, invalidate: bool, p: Handle)
    ensures var f := Happens(c, e, invalidate);
            && InFlight(f.enqueued, p, ToUser) == [] && InFlight(f.enqueued, p, ToSlot) == EventSignal(c, e, p)
            && InIo(f.posted, p) == []
  {
    hide InFlight, InIo, CompleteAll, TimerRuns, TimesOut;
    var f := Happens(c, e, invalidate);
    AtMostOne(f.enqueued, f.posted, p);
  }

  lemma EventEffectRest(c: Core, e: Event, invalidate: bool)
    ensures var f := Happens(c, e, invalidate);
            && f.core.log == c.log && f.core.scope == c.scope && f.core.session.ended == c.session.ended
            && f.core.emitted == c.emitted + EventEmission(c, e)
            && (f.core.session.peer == c.session.peer || f.core.session.peer == None)
            && (forall t, p :: t in f.enqueued && Tells(t, Closed(p)) ==> c.session.peer == Some(p))
  {
    hide CompleteAll, TimerRuns, TimesOut;
    assert c.emitted + [] == c.emitted;
  }

  lemma EventKeepsAccounted(s: Client, e: Event, invalidate: bool, p: Handle)
    requires PeerAccounted(s, p) && Enabled(s, e) && !e.RunDispatcher? && !e.RunIo?
    ensures PeerAccounted(Step(s, e, invalidate), p)
  {
    hide Happens, InFlight, InIo, ToldOf, EmittedBy, Of;
    var c := s.core;
    var f := Happens(c, e, invalidate);
    EventEffectFlight(c, e, invalidate, p);
    EventEffectRest(c, e, invalidate);
    InFlightAppend(s.dispatcher, f.enqueued, p, ToUser);
    InFlightAppend(s.dispatcher, f.enqueued, p, ToSlot);
    InIoAppend(s.io, f.posted, p);
    EventEmits(c, e, p);
    Extended(ToldOf(c.log, p), InFlight(s.dispatcher, p, ToUser), InIo(s.io, p), InFlight(s.dispatcher, p, ToSlot),
             EventSignal(c, e, p));
  }

  lemma EventEmits(c: Core, e: Event, p: Handle)
    ensures EmittedBy(c.emitted + EventEmission(c, e), p) == EmittedBy(c.emitted, p) + EventSignal(c, e, p)
  {
    hide EmittedBy;
    EmissionsGrow(c.emitted, EventEmission(c, e), p);
  }

  lemma Extended(told: seq<Signal>, user: seq<Signal>, io: seq<Signal>, slot: seq<Signal>, added: seq<Signal>)
    ensures told + (user + []) + (io + []) + (slot + added) == told + user + io + slot + added
    ensures told + (user + []) == told + user
  {
  }

  // -------------------------------------------------------------------- steps

  lemma {:induction false} UntoldOf(log: seq<Entry>, p: Handle)
    requires forall entry :: entry in log ==> Told(entry.note, p) == []
    ensures ToldOf(log, p) == []
    decreases |log|
  {
    if log != [] {
      assert log[|log| - 1] in log;
      UntoldOf(log[..|log| - 1], p);
    }
  }

  lemma {:induction false} NothingEmitted(emitted: seq<Emission>, p: Handle)
    requires forall emission :: emission in emitted ==> emission.peer != p
    ensures EmittedBy(emitted, p) == []
    decreases |emitted|
  {
    if emitted != [] {
      assert emitted[|emitted| - 1] in emitted;
      NothingEmitted(emitted[..|emitted| - 1], p);
    }
  }

  lemma {:induction false} NothingInFlight(q: seq<DispatcherTask>, p: Handle, hop: Hop)
    requires forall task :: task in q ==> Carried(task, p, hop) == []
    ensures InFlight(q, p, hop) == []
    decreases |q|
  {
    if q != [] {
      assert q[0] in q;
      NothingInFlight(q[1..], p, hop);
    }
  }

  lemma {:induction false} NothingInIo(io: seq<IoTask>, p: Handle)
    requires forall task :: task in io ==> CarriedIo(task, p) == []
    ensures InIo(io, p) == []
    decreases |io|
  {
    if io != [] {
      assert io[0] in io;
      NothingInIo(io[1..], p);
    }
  }

  lemma StepKeepsEmittedKnown(s: Client, e: Event, invalidate: bool)
    requires EmittedKnown(s.core) && HandlesKnown(s) && Enabled(s, e)
    ensures EmittedKnown(Step(s, e, invalidate).core)
  {
    hide RunDispatcherTask, RunIoTask, Happens, InFlight, InIo;
    StepKeepsHandlesKnown(s, e, invalidate);
    match e
    case RunDispatcher(verified) => DispatcherEffectFlight(s.core, s.dispatcher[0], verified, Handle(0, 0));
    case RunIo(endpointOk) => IoEffectRest(s.core, s.io[0], endpointOk);
    case _ => EventEffectRest(s.core, e, invalidate);
  }

  lemma StepKeepsAccounted(s: Client, e: Event, invalidate: bool, p: Handle)
    requires ClientInvariant(s) && DeliveryInvariant(s) && Enabled(s, e) && p in s.core.session.peers
    ensures PeerAccounted(Step(s, e, invalidate), p)
  {
    hide Step, PeerAccounted, SessionSound, TokensSound, CleanupsInOrder, RequestsOnPeer, ConnectionsAlive,
         NoPeerUnclosed, NeverStalled, NotesOrdered, AnnouncedFirst, PeerStage, EntrySound, NoteSound, HandlesKnown;
    match e
    case RunDispatcher(verified) =>
      assert s.dispatcher[0] in s.dispatcher;
      DispatcherKeepsAccounted(s, verified, invalidate, p);
    case RunIo(endpointOk) => IoKeepsAccounted(s, endpointOk, invalidate, p);
    case _ => EventKeepsAccounted(s, e, invalidate, p);
  }

  /** A connection just made has signalled nothing, and nobody has heard of it. */
  lemma NewPeerAccounted(s: Client, e: Event, invalidate: bool, p: Handle)
    requires HandlesKnown(s) && EmittedKnown(s.core) && Enabled(s, e) && p !in s.core.session.peers
    requires p in Step(s, e, invalidate).core.session.peers
    ensures PeerAccounted(Step(s, e, invalidate), p)
  {
    hide RunDispatcherTask, RunIoTask, Happens, InFlight, InIo, ToldOf, EmittedBy, CarriedIo, Carried;
    UnknownIsSilent(s, p);
    match e
    case RunDispatcher(verified) => DispatcherEffectLog(s.core, s.dispatcher[0], verified);
    case RunIo(endpointOk) =>
      var f := RunIoTask(s.core, s.io[0], endpointOk);
      IoEffectFlight(s.core, s.io[0], endpointOk, p);
      IoEffectRest(s.core, s.io[0], endpointOk);
      InFlightAppend(s.dispatcher, f.enqueued, p, ToUser);
      InFlightAppend(s.dispatcher, f.enqueued, p, ToSlot);
      InIoAppend(s.io[1..], f.posted, p);
      IoHead(s.io, p);
      EmissionsGrow(s.core.emitted, TaskEmission(s.core, s.io[0]), p);
    case _ => EventEffectPeers(s.core, e, invalidate);
  }

  lemma UnknownIsSilent(s: Client, p: Handle)
    requires HandlesKnown(s) && EmittedKnown(s.core) && p !in s.core.session.peers
    ensures EmittedBy(s.core.emitted, p) == [] && ToldOf(s.core.log, p) == [] && s.core.session.peer != Some(p)
    ensures InFlight(s.dispatcher, p, ToUser) == [] && InFlight(s.dispatcher, p, ToSlot) == [] && InIo(s.io, p) == []
  {
    UntoldOf(s.core.log, p);
    NothingEmitted(s.core.emitted, p);
    NothingInFlight(s.dispatcher, p, ToUser);
    NothingInFlight(s.dispatcher, p, ToSlot);
    NothingInIo(s.io, p);
  }

  // ----------------------------------------------------------- own closes

  lemma {:induction false} NotesCarryNoClose(q: seq<DispatcherTask>, p: Handle)
    ensures Closing !in InFlight(q, p, ToUser)
    decreases |q|
  {
    if q != [] {
      NotesCarryNoClose(q[1..], p);
    }
  }

  lemma {:induction false} ToldHasNoClose(log: seq<Entry>, p: Handle)
    ensures Closing !in ToldOf(log, p)
    decreases |log|
  {
    if log != [] {
      ToldHasNoClose(log[..|log| - 1], p);
    }
  }

  /** No note about `p` is queued behind, or after it was told, its `closed`. */
  lemma NothingAfterClosed(s: Client, p: Handle)
    requires NotesOrdered(s) && s.dispatcher != []
    ensures Tells(s.dispatcher[0], Closed(p)) ==> InFlight(s.dispatcher[1..], p, ToUser) == []
    ensures ClosedTold(s.core.log, p) ==> InFlight(s.dispatcher, p, ToUser) == []
  {
    if Tells(s.dispatcher[0], Closed(p)) {
      forall task | task in s.dispatcher[1..]
        ensures Carried(task, p, ToUser) == []
      {
        var j :| 0 < j < |s.dispatcher| && s.dispatcher[j] == task;
        assert TaskMayFollow(s.dispatcher[0], s.dispatcher[j]);
      }
      NothingInFlight(s.dispatcher[1..], p, ToUser);
    }
    if ClosedTold(s.core.log, p) {
      var entry :| entry in s.core.log && entry.note == Closed(p);
      forall task | task in s.dispatcher
        ensures Carried(task, p, ToUser) == []
      {
        assert EntryMayFollow(entry, task);
      }
      NothingInFlight(s.dispatcher, p, ToUser);
    }
  }

  lemma DispatcherTellsClosed(c: Core, task: DispatcherTask, verified: bool, p: Handle)
    ensures var f := RunDispatcherTask(c, task, verified);
            && (ClosedTold(f.core.log, p) <==>
                  ClosedTold(c.log, p) || (Tells(task, Closed(p)) && c.scope.IsCurrent(task.token)))
            && (forall t :: t in f.enqueued ==> !t.Notify?)
  {
    var f := RunDispatcherTask(c, task, verified);
    DispatcherEffectLog(c, task, verified);
    DispatcherEffectTells(c, task, verified);
    if Tells(task, Closed(p)) && c.scope.IsCurrent(task.token) {
      assert Entry(Closed(p), c.scope.generation) in f.core.log;
    }
    if ClosedTold(c.log, p) {
      var entry :| entry in c.log && entry.note == Closed(p);
      assert entry in f.core.log;
    }
  }

  lemma DispatcherKeepsEnd(s: Client, verified: bool, invalidate: bool, p: Handle)
    requires EndAccounted(s, p) && s.dispatcher != [] && NoteSound(s, s.dispatcher[0]) && NotesOrdered(s)
    requires p.token <= s.core.scope.generation && (p.token == s.core.scope.generation ==> s.core.scope.running)
    ensures EndAccounted(Step(s, RunDispatcher(verified), invalidate), p)
  {
    hide RunDispatcherTask, InFlight, ToldOf, EmittedBy, NoteSound, Carried, NotesOrdered, ClosedTold, Before;
    var c, q := s.core, s.dispatcher;
    var f := RunDispatcherTask(c, q[0], verified);
    StepQueues(s, RunDispatcher(verified), invalidate);
    DispatcherEffectLog(c, q[0], verified);
    DispatcherEffectRunning(c, q[0], verified);
    DispatcherEffectFlight(c, q[0], verified, p);
    DispatcherEffectTold(c, q[0], verified, p);
    DispatcherTellsClosed(c, q[0], verified, p);
    SlotCarriesNoNote(q[0], p);
    NothingAfterClosed(s, p);
    PopFlight(q, f.enqueued, p, ToUser);
    if Carried(q[0], p, ToUser) != [] {
      NoteToken(s, p);
    }
    ClosedCarriesNothing(q[0], p);
    var told, due, rest := ToldOf(c.log, p), Carried(q[0], p, ToUser), InFlight(q[1..], p, ToUser);
    assert told + (due + rest) == (told + due) + (rest + []);
    assert told + (due + []) == told + due && told + [] == told && (told + due) + [] == told + due;
  }

  lemma ClosedCarriesNothing(task: DispatcherTask, p: Handle)
    ensures Tells(task, Closed(p)) ==> Carried(task, p, ToUser) == [] && task.Notify?
  {
  }

  lemma SameBefore(emitted: seq<Signal>, added: seq<Signal>)
    requires |added| <= 1 && Closing in emitted
    ensures Closing in emitted + added && Before(emitted + added, Closing) == Before(emitted, Closing)
  {
    if added == [] {
      assert emitted + added == emitted;
    } else {
      assert emitted + added == emitted + [added[0]];
      BeforeAppend(emitted, added[0], Closing);
    }
  }

  /** Anything outside the dispatcher leaves an ended connection's account as it is. */
  lemma OthersKeepEnd(s: Client, t: Client, added: seq<DispatcherTask>, signals: seq<Signal>, p: Handle)
    requires EndAccounted(s, p) && t.core.session.peer != Some(p)
    requires t.core.log == s.core.log && t.core.scope == s.core.scope && t.dispatcher == s.dispatcher + added
    requires InFlight(added, p, ToUser) == [] && |signals| <= 1
    requires EmittedBy(t.core.emitted, p) == EmittedBy(s.core.emitted, p) + signals
    requires forall task :: task in added ==> !Tells(task, Closed(p))
    ensures EndAccounted(t, p)
  {
    hide InFlight, ToldOf, EmittedBy, ClosedTold, Before;
    InFlightAppend(s.dispatcher, added, p, ToUser);
    assert InFlight(s.dispatcher, p, ToUser) + [] == InFlight(s.dispatcher, p, ToUser);
    if Closing in EmittedBy(s.core.emitted, p) {
      SameBefore(EmittedBy(s.core.emitted, p), signals);
    }
  }

  lemma IoKeepsEnd(s: Client, endpointOk: bool, invalidate: bool, p: Handle)
    requires EndAccounted(s, p) && p in s.core.session.peers && HandlesKnown(s) && s.io != []
    ensures EndAccounted(Step(s, RunIo(endpointOk), invalidate), p)
  {
    hide RunIoTask, InFlight, ToldOf, EmittedBy, EndAccounted;
    var f := RunIoTask(s.core, s.io[0], endpointOk);
    NotCurrent(s, p);
    IoEffectFlight(s.core, s.io[0], endpointOk, p);
    IoEffectRest(s.core, s.io[0], endpointOk);
    EmissionsGrow(s.core.emitted, TaskEmission(s.core, s.io[0]), p);
    OthersKeepEnd(s, Step(s, RunIo(endpointOk), invalidate), f.enqueued, TaskSignal(s.core, s.io[0], p), p);
  }

  lemma NotCurrent(s: Client, p: Handle)
    requires EndAccounted(s, p)
    ensures s.core.session.peer != Some(p)
  {
  }

  lemma EventKeepsEnd(s: Client, e: Event, invalidate: bool, p: Handle)
    requires EndAccounted(s, p) && Enabled(s, e) && !e.RunDispatcher? && !e.RunIo?
    ensures EndAccounted(Step(s, e, invalidate), p)
  {
    hide Happens, InFlight, ToldOf, EmittedBy, EndAccounted, Of;
    var f := Happens(s.core, e, invalidate);
    NotCurrent(s, p);
    EventEffectFlight(s.core, e, invalidate, p);
    EventEffectRest(s.core, e, invalidate);
    EventEmits(s.core, e, p);
    AtMostOneSignal(s.core, e, p);
    OthersKeepEnd(s, Step(s, e, invalidate), f.enqueued, EventSignal(s.core, e, p), p);
  }

  lemma AtMostOneSignal(c: Core, e: Event, p: Handle)
    ensures |EventSignal(c, e, p)| <= 1
  {
  }

  /** When the current connection's own `closed` arrives, everything signalled before it
      has been told or is queued. */
  lemma OwnCloseEnds(s: Client, endpointOk: bool, invalidate: bool, p: Handle)
    requires PeerAccounted(s, p) && PeerStage(s, p) && s.io != [] && EndsPeer(s.core, s.io[0], p)
    ensures EndAccounted(Step(s, RunIo(endpointOk), invalidate), p)
  {
    hide RunIoTask, InFlight, InIo, ToldOf, EmittedBy, ConnectedTaken, Before;
    var c, f := s.core, RunIoTask(s.core, s.io[0], endpointOk);
    var t := Step(s, RunIo(endpointOk), invalidate);
    IoEffectFlight(c, s.io[0], endpointOk, p);
    IoEffectRest(c, s.io[0], endpointOk);
    InFlightAppend(s.dispatcher, f.enqueued, p, ToUser);
    IoHead(s.io, p);
    var told, notes := ToldOf(c.log, p), InFlight(s.dispatcher, p, ToUser);
    assert notes + [] == notes && c.emitted + [] == c.emitted;
    ToldHasNoClose(c.log, p);
    NotesCarryNoClose(s.dispatcher, p);
    if InSession(c, p) {
      var after := InIo(s.io[1..], p) + InFlight(s.dispatcher, p, ToSlot);
      assert EmittedBy(c.emitted, p) == told + notes + ([Closing] + after);
      BeforeMark(told + notes, Closing, after);
      assert f.enqueued[0] in t.dispatcher;
    }
  }

  // -------------------------------------------------------------------- runs

  lemma StepKeepsEnds(s: Client, e: Event, invalidate: bool, p: Handle)
    requires ClientInvariant(s) && DeliveryInvariant(s) && Enabled(s, e)
    requires p in Step(s, e, invalidate).core.session.ended
    ensures p in s.core.session.peers && EndAccounted(Step(s, e, invalidate), p)
  {
    hide PeerAccounted, EndAccounted, SessionSound, TokensSound, CleanupsInOrder, RequestsOnPeer, ConnectionsAlive,
         NoPeerUnclosed, NeverStalled, NotesOrdered, AnnouncedFirst, PeerStage, EntrySound, NoteSound, HandlesKnown,
         FailuresInSession, RunDispatcherTask, RunIoTask, Happens;
    CurrentIsKnown(s);
    match e
    case RunDispatcher(verified) =>
      assert s.dispatcher[0] in s.dispatcher;
      DispatcherEffectLog(s.core, s.dispatcher[0], verified);
      DispatcherKeepsEnd(s, verified, invalidate, p);
    case RunIo(endpointOk) =>
      IoEffectRest(s.core, s.io[0], endpointOk);
      if p in s.core.session.ended {
        IoKeepsEnd(s, endpointOk, invalidate, p);
      } else {
        OwnCloseEnds(s, endpointOk, invalidate, p);
      }
    case _ =>
      EventEffectRest(s.core, e, invalidate);
      EventKeepsEnd(s, e, invalidate, p);
  }

  lemma CurrentIsKnown(s: Client)
    requires ClientInvariant(s)
    ensures s.core.session.peer.Some? ==> s.core.session.peer.value in s.core.session.peers
  {
    hide SessionSound, TokensSound, PeersSound, CleanupsInOrder, RequestsOnPeer, ConnectionsAlive, NoPeerUnclosed,
         NeverStalled, OrderInvariant, FailuresInSession;
  }

  lemma StepKeepsDelivery(s: Client, e: Event, invalidate: bool)
    requires ClientInvariant(s) && DeliveryInvariant(s)
    ensures DeliveryInvariant(Step(s, e, invalidate))
  {
    hide Step, Enabled, PeerAccounted, EndAccounted, EmittedKnown, SessionSound, TokensSound, PeersSound,
         CleanupsInOrder, RequestsOnPeer, ConnectionsAlive, NoPeerUnclosed, NeverStalled, OrderInvariant,
         FailuresInSession, HandlesKnown;
    if Enabled(s, e) {
      var t := Step(s, e, invalidate);
      StepKeepsEmittedKnown(s, e, invalidate);
      PeersOnlyGrow(s, e, invalidate);
      forall p | p in t.core.session.peers
        ensures PeerAccounted(t, p)
      {
        if p in s.core.session.peers {
          StepKeepsAccounted(s, e, invalidate, p);
        } else {
          NewPeerAccounted(s, e, invalidate, p);
        }
      }
      forall p | p in t.core.session.ended
        ensures p in t.core.session.peers && EndAccounted(t, p)
      {
        StepKeepsEnds(s, e, invalidate, p);
      }
    } else {
      DisabledStutters(s, e, invalidate);
    }
  }

  lemma PeersOnlyGrow(s: Client, e: Event, invalidate: bool)
    requires HandlesKnown(s) && Enabled(s, e)
    ensures s.core.session.peers <= Step(s, e, invalidate).core.session.peers
  {
    hide RunDispatcherTask, RunIoTask, Happens, CoreHandlesKnown;
    StepKeepsHandlesKnown(s, e, invalidate);
  }

  lemma {:induction false} EveryRunKeepsDelivery(s: Client, events: seq<Event>, invalidate: bool)
    requires ClientInvariant(s) && DeliveryInvariant(s)
    ensures DeliveryInvariant(Run(s, events, invalidate))
    decreases |events|
  {
    hide ClientInvariant, DeliveryInvariant, Step;
    if events != [] {
      StepKeepsClientInvariant(s, events[0], invalidate);
      StepKeepsDelivery(s, events[0], invalidate);
      EveryRunKeepsDelivery(Step(s, events[0], invalidate), events[1..], invalidate);
    }
  }

  lemma ReachableDelivery(events: seq<Event>, invalidate: bool)
    ensures var s := Run(InitialClient, events, invalidate); ClientInvariant(s) && DeliveryInvariant(s)
  {
    hide Run, ClientInvariant;
    InitialClientInvariant();
    EveryRunKeepsClientInvariant(InitialClient, events, invalidate);
    EveryRunKeepsDelivery(InitialClient, events, invalidate);
  }

  /** Over every run: the data, requests and errors the user is told of a connection are a
      prefix, in order and unchanged, of what it signalled; and for the current
      connection all of it once both queues are empty. */
  lemma ClientDeliversInOrder(events: seq<Event>, invalidate: bool, p: Handle)
    requires p in Run(InitialClient, events, invalidate).core.session.peers
    ensures var s := Run(InitialClient, events, invalidate);
            var told, emitted := ToldOf(s.core.log, p), EmittedBy(s.core.emitted, p);
            told <= emitted && (InSession(s.core, p) && s.dispatcher == [] && s.io == [] ==> told == emitted)
  {
    hide Run, ClientInvariant;
    ReachableDelivery(events, invalidate);
    assert PeerAccounted(Run(InitialClient, events, invalidate), p);
  }

  lemma {:induction false} NothingToldAfter(log: seq<Entry>, j: nat, p: Handle)
    requires j < |log| && log[j].note == Closed(p)
    requires forall i, k :: 0 <= i < k < |log| ==> MayFollow(log[i].note, log[k].note)
    ensures ToldOf(log, p) == ToldOf(log[..j], p)
    decreases |log|
  {
    var last := |log| - 1;
    if j < last {
      assert MayFollow(log[j].note, log[last].note);
      assert log[..last][..j] == log[..j];
      NothingToldAfter(log[..last], j, p);
    }
  }

  /** A connection that ended by its own close loses nothing: `closed` is told, in its
      session, once the dispatcher has caught up; and everything the connection signalled
      before its close was told, in order and unchanged, before that `closed`. */
  lemma ClientDropsNothing(events: seq<Event>, invalidate: bool, p: Handle)
    requires p in Run(InitialClient, events, invalidate).core.session.ended
    ensures var s := Run(InitialClient, events, invalidate);
            && (s.core.scope.IsCurrent(p.token) && s.dispatcher == [] ==> ClosedTold(s.core.log, p))
            && (forall j :: 0 <= j < |s.core.log| && s.core.log[j].note == Closed(p) ==>
                  ToldOf(s.core.log[..j], p) == Before(EmittedBy(s.core.emitted, p), Closing))
  {
    hide Run, SessionSound, TokensSound, HandlesKnown, PeersSound, CleanupsInOrder, RequestsOnPeer, ConnectionsAlive,
         NoPeerUnclosed, NeverStalled, FailuresInSession, PeerAccounted, ToldOf, EmittedBy, Before;
    var s := Run(InitialClient, events, invalidate);
    ReachableDelivery(events, invalidate);
    assert EndAccounted(s, p);
    forall j | 0 <= j < |s.core.log| && s.core.log[j].note == Closed(p)
      ensures ToldOf(s.core.log[..j], p) == Before(EmittedBy(s.core.emitted, p), Closing)
    {
      assert s.core.log[j] in s.core.log;
      NothingToldAfter(s.core.log, j, p);
    }
  }
}
