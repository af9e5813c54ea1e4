/** The client settles: with no new call, completion or timer, the two threads run dry in
    boundedly many steps, whatever their interleaving, and leave it waiting for something. */
module ClientSettles {
  import opened Common
  import opened Queues
  import opened Requests
  import opened ClientModel
  import opened ClientProgress
  import opened ClientTheorems

  function Weight(task: DispatcherTask): nat {
    match task
    case UserStart => 4
    case UserStop => 8
    case UserInvalidate => 10
    case Notify(_, Verify(_)) => 5
    case Notify(_, _) => 2
    case SignalSlot(_, _) => 4
    case CancelReconnect | DebounceReconnect => 1
  }

  function IoWeight(task: IoTask): nat {
    match task
    case ConnectTask(_) => 3
    case HandleConnected(_, _) => 4
    case StopTask => 6
    case InvalidateTask(_) => 8
    case AnnouncePeer(_) => 3
    case ForwardSignal(_, _) => 3
    case ClosePeerTask(_) => 5
    case SendRequestTask => 1
  }

  /** A bound on the steps the queued tasks still cause. */
  function Work(s: Client): nat {
    Sum(s.dispatcher, Weight) + Sum(s.io, IoWeight)
  }

  function EffectWork(f: Effect): nat {
    Sum(f.enqueued, Weight) + Sum(f.posted, IoWeight)
  }

  lemma EffectWeighs(f: Effect)
    requires |f.enqueued| <= 1 && |f.posted| <= 1
    ensures EffectWork(f) == (if f.enqueued == [] then 0 else Weight(f.enqueued[0]))
                           + (if f.posted == [] then 0 else IoWeight(f.posted[0]))
  {
    if f.enqueued != [] {
      SumOne(f.enqueued[0], Weight);
      assert f.enqueued == [f.enqueued[0]];
    }
    if f.posted != [] {
      SumOne(f.posted[0], IoWeight);
      assert f.posted == [f.posted[0]];
    }
  }

  lemma DispatcherWorks(c: Core, task: DispatcherTask, verified: bool)
    ensures EffectWork(RunDispatcherTask(c, task, verified)) < Weight(task)
  {
    hide Sum;
    EffectWeighs(RunDispatcherTask(c, task, verified));
  }

  lemma IoWorks(c: Core, task: IoTask, endpointOk: bool)
    ensures EffectWork(RunIoTask(c, task, endpointOk)) < IoWeight(task)
  {
    hide Sum, CompleteAll, Complete, Add;
    EffectWeighs(RunIoTask(c, task, endpointOk));
  }

  predicate RunsHead(e: Event) {
    e.RunDispatcher? || e.RunIo?
  }

  lemma HeadWorks(s: Client, e: Event, invalidate: bool)
    requires Enabled(s, e) && RunsHead(e)
    ensures Work(Step(s, e, invalidate)) < Work(s)
  {
    hide RunDispatcherTask, RunIoTask, Weight, IoWeight;
    var f, r := EffectOf(s, e, invalidate), Remaining(s, e);
    SumAppend(r.dispatcher, f.enqueued, Weight);
    SumAppend(r.io, f.posted, IoWeight);
    match e
    case RunDispatcher(verified) => DispatcherWorks(s.core, s.dispatcher[0], verified);
    case RunIo(endpointOk) => IoWorks(s.core, s.io[0], endpointOk);
  }

  /** Only queue heads run, each a task that is there. */
  predicate RunsHeads(s: Client, heads: seq<Event>, invalidate: bool)
    decreases |heads|
  {
    heads == []
    || (RunsHead(heads[0]) && Enabled(s, heads[0]) && RunsHeads(Step(s, heads[0], invalidate), heads[1..], invalidate))
  }

  lemma {:induction false} HeadsAreBounded(s: Client, heads: seq<Event>, invalidate: bool)
    requires RunsHeads(s, heads, invalidate)
    ensures |heads| + Work(Run(s, heads, invalidate)) <= Work(s)
    decreases |heads|
  {
    hide Step, Enabled, Work;
    if heads != [] {
      HeadWorks(s, heads[0], invalidate);
      HeadsAreBounded(Step(s, heads[0], invalidate), heads[1..], invalidate);
    }
  }

  predicate Idle(s: Client) {
    s.dispatcher == [] && s.io == []
  }

  /** Running heads while there are any makes the client idle. */
  lemma {:induction false} HeadsRunDry(s: Client, invalidate: bool)
    ensures exists heads :: RunsHeads(s, heads, invalidate) && Idle(Run(s, heads, invalidate))
    decreases Work(s)
  {
    hide Work;
    if Idle(s) {
      assert RunsHeads(s, [], invalidate) && Idle(Run(s, [], invalidate));
    } else {
      var e := if s.dispatcher != [] then RunDispatcher(true) else RunIo(true);
      HeadWorks(s, e, invalidate);
      var t := Step(s, e, invalidate);
      HeadsRunDry(t, invalidate);
      var heads :| RunsHeads(t, heads, invalidate) && Idle(Run(t, heads, invalidate));
      var all := [e] + heads;
      assert all[1..] == heads;
      assert RunsHeads(s, all, invalidate) && Run(s, all, invalidate) == Run(t, heads, invalidate);
    }
  }

  /** What an idle running client waits for. */
  predicate Waits(c: Core) {
    || c.armed
    || (c.session.connecting.Some? && c.session.connecting.value in c.session.connects)
    || (c.session.peer.Some? && c.session.peer.value in c.session.live)
  }

  /** From every reachable state: any interleaving of the two threads' queued work ends
      within `Work(s)` steps, some interleaving ends it, and whichever does leaves a running
      client waiting for an async_connect, an open peer or the reconnect timer. */
  lemma ClientSettles(events: seq<Event>, heads: seq<Event>, invalidate: bool)
    requires RunsHeads(Run(InitialClient, events, invalidate), heads, invalidate)
    ensures var s := Run(InitialClient, events, invalidate);
            var t := Run(s, heads, invalidate);
            && |heads| <= Work(s)
            && (exists more :: RunsHeads(t, more, invalidate) && Idle(Run(t, more, invalidate)))
            && (Idle(t) && t.core.scope.running ==> Waits(t.core))
  {
    hide Run, Work, RunsHeads;
    var s := Run(InitialClient, events, invalidate);
    HeadsAreBounded(s, heads, invalidate);
    HeadsRunDry(Run(s, heads, invalidate), invalidate);
    RunSplit(InitialClient, events, heads, invalidate);
    ClientNeverStalls(events + heads, invalidate);
  }
}
