/** The server settles: with no new call, completion or timer, the two threads run dry in
    boundedly many steps, whatever their interleaving, and leave it waiting for something. */
module ServerSettles {
  import opened Common
  import opened Queues
  import opened Requests
  import opened ServerModel
  import opened ServerProofs
  import opened ServerTheorems

  const CLOSE_WEIGHT: nat := 5
  const PROBE_WEIGHT: nat := 6

  function Weight(task: DispatcherTask): nat {
    match task
    case UserStart => 9
    case UserStop => 4
    case Notify(_, Verify(_)) => 2
    case Notify(_, Deliver(note)) => if note.Bound? then 7 else 3
    case PeerSlot(_, _) => 3
    case DeliverSignal(_, _) => 1
    case ProbeSlot(_, _) => 5
    case StartChecks => 6
    case RunCheck => 5
    case CancelRetry | DebounceRetry | StopChecks => 1
  }

  function IoWeight(task: IoTask): nat {
    match task
    case BindTask(_) => 8
    case HealthCheckTask(_) => 4
    case PeerCloseTask(_, _) => CLOSE_WEIGHT
    case ProbeResult(_, _) => 4
    case ProbeCloseTask(_) => PROBE_WEIGHT
    case _ => 1
  }

  /** The closes that the peers in the map and the probe peer may still cause. */
  function Credit(c: Core): nat {
    CLOSE_WEIGHT * |c.members.peers| + if c.probing.peer.Some? then PROBE_WEIGHT else 0
  }

  /** A bound on the steps the queued tasks still cause. */
  function Work(s: Server): nat {
    Sum(s.dispatcher, Weight) + Sum(s.io, IoWeight) + Credit(s.core)
  }

  function EffectWork(f: Effect): nat {
    Sum(f.enqueued, Weight) + Sum(f.posted, IoWeight) + Credit(f.core)
  }

  lemma SumTwo<T>(a: T, b: T, weight: T -> nat)
    ensures Sum([a, b], weight) == weight(a) + weight(b)
  {
    assert [a, b][1..] == [b];
    SumOne(b, weight);
  }

  /** The weight of the first task, and of a second one. */
  function FirstTwo<T>(queue: seq<T>, weight: T -> nat): nat {
    (if |queue| > 0 then weight(queue[0]) else 0) + if |queue| > 1 then weight(queue[1]) else 0
  }

  /** The weight of up to two tasks. */
  lemma Small<T>(queue: seq<T>, weight: T -> nat)
    requires |queue| <= 2
    ensures Sum(queue, weight) == FirstTwo(queue, weight)
  {
    if |queue| == 1 {
      assert queue == [queue[0]];
      SumOne(queue[0], weight);
    } else if |queue| == 2 {
      assert queue == [queue[0], queue[1]];
      SumTwo(queue[0], queue[1], weight);
    }
  }

  lemma DispatcherWorks(c: Core, task: DispatcherTask, verified: bool)
    ensures EffectWork(RunDispatcherTask(c, task, verified)) < Weight(task) + Credit(c)
  {
    hide Sum, RunDispatcherTask, Weight, IoWeight, MembersAfterDispatcher;
    var f := RunDispatcherTask(c, task, verified);
    DispatcherFrame(c, task, verified);
    DispatcherKeepsPeers(c, task, verified);
    DispatcherQueuesLess(c, task, verified);
    Small(f.enqueued, Weight);
    Small(f.posted, IoWeight);
  }

  lemma DispatcherKeepsPeers(c: Core, task: DispatcherTask, verified: bool)
    ensures MembersAfterDispatcher(c, task, verified).peers == c.members.peers
  {
  }

  lemma DispatcherQueuesLess(c: Core, task: DispatcherTask, verified: bool)
    ensures var f := RunDispatcherTask(c, task, verified);
            FirstTwo(f.enqueued, Weight) + FirstTwo(f.posted, IoWeight) < Weight(task)
  {
    hide Judge, Settle;
  }

  lemma {:induction false} SumOfCloses(order: seq<PeerId>)
    ensures Sum(PeerCloseTasks(order), IoWeight) == CLOSE_WEIGHT * |order|
    decreases |order|
  {
    if order != [] {
      assert PeerCloseTasks(order)[1..] == PeerCloseTasks(order[1..]);
      SumOfCloses(order[1..]);
    }
  }

  lemma {:induction false} EnumerationSize(order: seq<PeerId>, peers: set<PeerId>)
    requires Enumerates(order, peers)
    ensures |order| == |peers|
    decreases |order|
  {
    if order == [] {
      assert peers == {};
    } else {
      var rest := peers - {order[0]};
      assert forall p :: p in order[1..] ==> p in rest;
      assert forall p :: p in rest ==> p in order && p != order[0];
      EnumerationSize(order[1..], rest);
      assert peers == rest + {order[0]};
    }
  }

  lemma {:induction false} SomeEnumeration(peers: set<PeerId>)
    ensures exists order :: Enumerates(order, peers)
    decreases |peers|
  {
    if peers == {} {
      assert Enumerates([], peers);
    } else {
      var p :| p in peers;
      SomeEnumeration(peers - {p});
      var rest :| Enumerates(rest, peers - {p});
      assert Enumerates([p] + rest, peers);
    }
  }

  lemma StopWorks(c: Core, order: seq<PeerId>)
    requires Enumerates(order, c.members.peers)
    ensures EffectWork(StopTaskRuns(c, order)) <= Credit(c)
  {
    hide Sum, CompleteAll, PeerCloseTasks, Enumerates;
    EnumerationSize(order, c.members.peers);
    SumOfCloses(order);
    Small(DropTasks(c.probing), IoWeight);
    SumAppend(PeerCloseTasks(order), DropTasks(c.probing), IoWeight);
    Small<DispatcherTask>([], Weight);
  }

  lemma FewerPeers(peers: set<PeerId>, p: PeerId)
    ensures |peers - {p}| == if p in peers then |peers| - 1 else |peers|
  {
    if p !in peers {
      assert peers - {p} == peers;
    }
  }

  /** A task with at most two tasks to show for it works off its weight. */
  predicate QueuesLess(f: Effect, weight: nat, credit: nat) {
    && |f.enqueued| <= 2 && |f.posted| <= 2
    && FirstTwo(f.enqueued, Weight) + FirstTwo(f.posted, IoWeight) + Credit(f.core) < weight + credit
  }

  lemma LessWorks(f: Effect, weight: nat, credit: nat)
    requires QueuesLess(f, weight, credit)
    ensures EffectWork(f) < weight + credit
  {
    hide Sum, Credit, Weight, IoWeight;
    Small(f.enqueued, Weight);
    Small(f.posted, IoWeight);
  }

  lemma PeerTaskWorks(c: Core, task: IoTask, ok: bool)
    requires task.ClosePeerRequest? || task.PeerCloseTask? || task.ForgetPeer?
    ensures QueuesLess(RunIoTask(c, task, ok, []), IoWeight(task), Credit(c))
  {
    hide CompletePeer;
    FewerPeers(c.members.peers, task.peer);
  }

  lemma OtherTaskWorks(c: Core, task: IoTask, ok: bool, order: seq<PeerId>)
    requires !task.StopTask? && !task.ClosePeerRequest? && !task.PeerCloseTask? && !task.ForgetPeer?
    ensures QueuesLess(RunIoTask(c, task, ok, order), IoWeight(task), Credit(c))
  {
    hide CompletePeer, CompleteOfPeer, Add, Listen;
  }

  lemma IoWorks(c: Core, task: IoTask, ok: bool, order: seq<PeerId>)
    requires task.StopTask? ==> Enumerates(order, c.members.peers)
    ensures EffectWork(RunIoTask(c, task, ok, order)) < IoWeight(task) + Credit(c)
  {
    hide Sum, EffectWork, Credit, Enumerates, QueuesLess;
    var f := RunIoTask(c, task, ok, order);
    match task
    case StopTask => StopWorks(c, order);
    case ClosePeerRequest(_) | PeerCloseTask(_, _) | ForgetPeer(_) =>
      PeerTaskWorks(c, task, ok);
      LessWorks(f, IoWeight(task), Credit(c));
    case _ =>
      OtherTaskWorks(c, task, ok, order);
      LessWorks(f, IoWeight(task), Credit(c));
  }

  predicate RunsHead(e: Event) {
    e.RunDispatcher? || e.RunIo?
  }

  lemma HeadWorks(s: Server, e: Event, invalidate: bool)
    requires Enabled(s, e) && RunsHead(e)
    ensures Work(Step(s, e, invalidate)) < Work(s)
  {
    hide RunDispatcherTask, RunIoTask, Weight, IoWeight, Credit, Enumerates;
    var f, r := EffectOf(s, e, invalidate), Remaining(s, e);
    SumAppend(r.dispatcher, f.enqueued, Weight);
    SumAppend(r.io, f.posted, IoWeight);
    match e
    case RunDispatcher(verified) => DispatcherWorks(s.core, s.dispatcher[0], verified);
    case RunIo(ok, order) => IoWorks(s.core, s.io[0], ok, order);
  }

  /** Only queue heads run, each a task that is there. */
  predicate RunsHeads(s: Server, heads: seq<Event>, invalidate: bool)
    decreases |heads|
  {
    heads == []
    || (RunsHead(heads[0]) && Enabled(s, heads[0]) && RunsHeads(Step(s, heads[0], invalidate), heads[1..], invalidate))
  }

  lemma {:induction false} HeadsAreBounded(s: Server, heads: seq<Event>, invalidate: bool)
    requires RunsHeads(s, heads, invalidate)
    ensures |heads| + Work(Run(s, heads, invalidate)) <= Work(s)
    decreases |heads|
  {
    hide Step, Enabled, Work;
    if heads != [] {
      HeadWorks(s, heads[0], invalidate);
      HeadsAreBounded(Step(s, heads[0], invalidate), heads[1..], invalidate);
    }
  }

  predicate Idle(s: Server) {
    s.dispatcher == [] && s.io == []
  }

  lemma SomeHead(s: Server) returns (e: Event)
    requires !Idle(s)
    ensures RunsHead(e) && Enabled(s, e)
    ensures e.RunDispatcher? ==> e.verified
  {
    if s.dispatcher != [] {
      e := RunDispatcher(true);
    } else {
      SomeEnumeration(s.core.members.peers);
      var order :| Enumerates(order, s.core.members.peers);
      e := RunIo(true, order);
    }
  }

  /** Running heads while there are any makes the server idle. */
  lemma {:induction false} HeadsRunDry(s: Server, invalidate: bool)
    ensures exists heads :: RunsHeads(s, heads, invalidate) && Idle(Run(s, heads, invalidate))
    decreases Work(s)
  {
    hide Work, Step, Enabled;
    if Idle(s) {
      assert RunsHeads(s, [], invalidate) && Idle(Run(s, [], invalidate));
    } else {
      var e := SomeHead(s);
      HeadWorks(s, e, invalidate);
      var t := Step(s, e, invalidate);
      HeadsRunDry(t, invalidate);
      var heads :| RunsHeads(t, heads, invalidate) && Idle(Run(t, heads, invalidate));
      var all := [e] + heads;
      assert all[1..] == heads;
      assert RunsHeads(s, all, invalidate) && Run(s, all, invalidate) == Run(t, heads, invalidate);
    }
  }

  /** What an idle running server waits for. */
  predicate Waits(c: Core) {
    || c.retryArmed
    || (c.listening.acceptor.Some? && Accept(c.listening.acceptor.value, c.scope.generation) in c.listening.accepts)
  }

  /** From every reachable state: any interleaving of the two threads' queued work ends
      within `Work(s)` steps, some interleaving ends it, and whichever does leaves a running
      server waiting for an async_accept on its acceptor or for the bind retry timer. */
  lemma ServerSettles(events: seq<Event>, heads: seq<Event>, invalidate: bool)
    requires RunsHeads(Run(InitialServer, events, invalidate), heads, invalidate)
    ensures var s := Run(InitialServer, events, invalidate);
            var t := Run(s, heads, invalidate);
            && |heads| <= Work(s)
            && (exists more :: RunsHeads(t, more, invalidate) && Idle(Run(t, more, invalidate)))
            && (Idle(t) && t.core.scope.running ==> Waits(t.core))
  {
    hide Run, Work, RunsHeads;
    var s := Run(InitialServer, events, invalidate);
    HeadsAreBounded(s, heads, invalidate);
    HeadsRunDry(Run(s, heads, invalidate), invalidate);
    RunSplit(InitialServer, events, heads, invalidate);
    ServerNeverStalls(events + heads, invalidate);
  }
}
