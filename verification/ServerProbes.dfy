/** Health-check probes: at most one at a time, never stuck, and deaf to the late
    callbacks of their predecessors. */
module ServerProbes {
  import opened Common
  import opened Queues
  import opened NotificationScope
  import opened Requests
  import opened ServerModel
  import opened ServerProofs
  import opened ServerProgress

  ghost predicate UsedProbes(k: Probing, probes: set<Probe>) {
    forall probe :: probe in probes ==> probe.id < k.nextId
  }

  /** A probe peer belongs to the probe whose timeout is set, a probe becomes a peer
      at most once, and the timeout of a current probe is armed. */
  ghost predicate ProbingSound(c: Core) {
    var k := c.probing;
    && (k.peer.Some? ==> k.timeout == k.peer && k.peer.value in k.made)
    && (k.timeout.Some? ==> k.timeout.value.id < k.nextId)
    && UsedProbes(k, k.connects) && UsedProbes(k, k.timers) && UsedProbes(k, k.cancelled) && UsedProbes(k, k.made)
    && k.connects !! k.made && k.open <= k.made
    && (CurrentTimeout(c) ==> k.timeout.value in k.timers && k.timeout.value !in k.cancelled)
  }

  predicate TimeoutToken(c: Core) {
    c.probing.timeout.Some? ==> SessionToken(c.scope, c.probing.timeout.value.token)
  }

  lemma DispatcherKeepsProbing(c: Core, task: DispatcherTask, verified: bool)
    requires ProbingSound(c) && TimeoutToken(c)
    ensures ProbingSound(RunDispatcherTask(c, task, verified).core)
  {
    hide RunDispatcherTask, MembersAfterDispatcher;
    DispatcherFrame(c, task, verified);
  }

  lemma StartedProbing(c: Core, token: Token, ok: bool)
    requires ProbingSound(c)
    ensures ProbingSound(RunHealthCheck(c, token, ok).core)
  {
  }

  lemma ConnectedProbing(c: Core, probe: Probe, ok: bool)
    requires ProbingSound(c) && TimeoutToken(c) && probe in c.probing.connects
    ensures ProbingSound(ProbeConnected(c, probe, ok).core)
  {
  }

  lemma TimedProbing(c: Core, probe: Probe, expired: bool)
    requires ProbingSound(c) && TimeoutToken(c) && (expired || probe in c.probing.cancelled)
    ensures ProbingSound(ProbeTimer(c, probe, expired).core)
  {
  }

  /** Every other task and event leaves the probe alone, or drops it with its timer cancelled. */
  predicate ProbingKept(k: Probing, m: Probing) {
    || m == k
    || m == DropProbe(k)
    || (m == k.(open := m.open) && m.open <= k.open)
  }

  lemma IoProbingKept(c: Core, task: IoTask, ok: bool, order: seq<PeerId>)
    requires !task.HealthCheckTask?
    ensures ProbingKept(c.probing, RunIoTask(c, task, ok, order).core.probing)
  {
    hide CompleteAll, CompletePeer, CompleteOfPeer, Add, Expel, Emit, Enumerates;
  }

  lemma KeptProbing(c: Core, d: Core)
    requires ProbingSound(c) && ProbingKept(c.probing, d.probing) && c.scope == d.scope
    ensures ProbingSound(d)
  {
  }

  lemma IoKeepsProbing(c: Core, task: IoTask, ok: bool, order: seq<PeerId>)
    requires ProbingSound(c)
    ensures ProbingSound(RunIoTask(c, task, ok, order).core)
  {
    hide ProbingSound, ProbingKept;
    if task.HealthCheckTask? {
      StartedProbing(c, task.token, ok);
    } else {
      hide RunIoTask, MembersAfterIo;
      IoFrame(c, task, ok, order);
      IoProbingKept(c, task, ok, order);
      KeptProbing(c, RunIoTask(c, task, ok, order).core);
    }
  }

  lemma EventProbingKept(c: Core, e: Event, invalidate: bool)
    requires e.PeerEmits? || e.PeerDestroyed? ==> e.peer in c.members.known
    requires !e.ProbeConnectCompletes? && !e.ProbeTimerRuns?
    ensures ProbingKept(c.probing, Happens(c, e, invalidate).core.probing)
  {
    hide CompletePeer, TimerRuns, TimesOut, Expel, Emit, Adopt, AcceptNext;
  }

  lemma EventKeepsProbing(s: Server, e: Event, invalidate: bool)
    requires ProbingSound(s.core) && TimeoutToken(s.core) && Enabled(s, e) && !e.RunDispatcher? && !e.RunIo?
    ensures ProbingSound(Happens(s.core, e, invalidate).core)
  {
    hide ProbingSound, ProbingKept, Happens;
    var d := Happens(s.core, e, invalidate).core;
    match e
    case ProbeConnectCompletes(probe, ok) =>
      ConnectedProbing(s.core, probe, ok);
      ConnectEvent(s.core, probe, ok, invalidate);
    case ProbeTimerRuns(probe, expired) =>
      TimedProbing(s.core, probe, expired);
      TimerEvent(s.core, probe, expired, invalidate);
    case _ =>
      EventFrame(s.core, e, invalidate);
      EventProbingKept(s.core, e, invalidate);
      KeptProbing(s.core, d);
  }

  lemma ConnectEvent(c: Core, probe: Probe, ok: bool, invalidate: bool)
    ensures Happens(c, ProbeConnectCompletes(probe, ok), invalidate) == ProbeConnected(c, probe, ok)
  {
  }

  lemma TimerEvent(c: Core, probe: Probe, expired: bool, invalidate: bool)
    ensures Happens(c, ProbeTimerRuns(probe, expired), invalidate) == ProbeTimer(c, probe, expired)
  {
  }

  lemma StepKeepsProbing(s: Server, e: Event, invalidate: bool)
    requires ProbingSound(s.core) && TokensSound(s) && Enabled(s, e)
    ensures ProbingSound(Step(s, e, invalidate).core)
  {
    hide ProbingSound, RunDispatcherTask, RunIoTask, Happens, MayEmit;
    match e
    case RunDispatcher(verified) => DispatcherKeepsProbing(s.core, s.dispatcher[0], verified);
    case RunIo(ok, order) => IoKeepsProbing(s.core, s.io[0], ok, order);
    case _ => EventKeepsProbing(s, e, invalidate);
  }

  // --------------------------------------------------------- released closed

  /** A probe peer whose close has not run is the current one or has its close posted. */
  ghost predicate NoProbeUnclosed(s: Server) {
    forall probe :: probe in s.core.probing.open ==> s.core.probing.peer == Some(probe) || ProbeCloseTask(probe) in s.io
  }

  predicate ProbeDropped(c: Core, f: Effect) {
    c.probing.peer.Some? && f.core.probing.peer != c.probing.peer
  }

  lemma IoEffectProbeCloses(c: Core, task: IoTask, ok: bool, order: seq<PeerId>)
    ensures var f := RunIoTask(c, task, ok, order);
            && f.core.probing.open <= c.probing.open
            && (ProbeDropped(c, f) ==> ProbeCloseTask(c.probing.peer.value) in f.posted)
            && (task.ProbeCloseTask? ==> task.probe !in f.core.probing.open)
  {
    hide CompleteAll, CompletePeer, CompleteOfPeer, Add, Expel, Emit, Enumerates, PeerCloseTasks;
  }

  lemma EventEffectProbeCloses(c: Core, e: Event, invalidate: bool)
    requires e.PeerEmits? || e.PeerDestroyed? ==> e.peer in c.members.known
    requires ProbingSound(c) && (e.ProbeConnectCompletes? ==> e.probe in c.probing.connects)
    ensures var f := Happens(c, e, invalidate);
            && (f.core.probing.open <= c.probing.open
                || (f.core.probing.peer.Some? && f.core.probing.open == c.probing.open + {f.core.probing.peer.value}))
            && (ProbeDropped(c, f) ==> ProbeCloseTask(c.probing.peer.value) in f.posted)
  {
    hide CompletePeer, TimerRuns, TimesOut, Expel, Emit, Adopt, AcceptNext, UsedProbes;
  }

  lemma StepKeepsProbesClosed(s: Server, e: Event, invalidate: bool)
    requires NoProbeUnclosed(s) && ProbingSound(s.core) && Enabled(s, e)
    ensures NoProbeUnclosed(Step(s, e, invalidate))
  {
    hide ProbingSound, RunDispatcherTask, RunIoTask, Happens, MayEmit, Enumerates, MembersAfterDispatcher;
    StepQueues(s, e, invalidate);
    match e
    case RunDispatcher(verified) => DispatcherFrame(s.core, s.dispatcher[0], verified);
    case RunIo(ok, order) => IoEffectProbeCloses(s.core, s.io[0], ok, order);
    case _ => EventEffectProbeCloses(s.core, e, invalidate);
  }

  // ---------------------------------------------------------------- isolation

  /** The probe whose callback an event runs, if it runs one. */
  function CallbackOf(s: Server, e: Event): Option<Probe>
    requires Enabled(s, e)
  {
    match e
    case RunDispatcher(_) => if s.dispatcher[0].ProbeSlot? then Some(s.dispatcher[0].probe) else None
    case RunIo(_, _) =>
      if s.io[0].ProbeResult? || s.io[0].ProbeCloseTask? then Some(s.io[0].probe) else None
    case ProbeConnectCompletes(probe, _) => Some(probe)
    case ProbeTimerRuns(probe, _) => Some(probe)
    case ProbeEmits(probe, _) => Some(probe)
    case ProbeCloseRuns(probe) => Some(probe)
    case _ => None
  }

  predicate SameProbe(k: Probing, m: Probing, probe: Probe) {
    && (probe in m.connects <==> probe in k.connects)
    && (probe in m.timers <==> probe in k.timers)
    && (probe in m.cancelled <==> probe in k.cancelled)
    && (probe in m.open <==> probe in k.open)
  }

  /** The current probe, the acceptor, the peers and the user notice nothing. */
  predicate Unnoticed(s: Server, t: Server) {
    && t.core == s.core.(probing := t.core.probing)
    && t.core.probing.timeout == s.core.probing.timeout && t.core.probing.peer == s.core.probing.peer
    && (s.core.probing.timeout.Some? ==> SameProbe(s.core.probing, t.core.probing, s.core.probing.timeout.value))
  }

  /** A callback of a probe other than the current one changes nothing of the current
      one, whatever it reports, and tells the user nothing. */
  lemma OldProbeGoesUnnoticed(s: Server, e: Event, invalidate: bool)
    requires Enabled(s, e) && CallbackOf(s, e).Some? && CallbackOf(s, e) != s.core.probing.timeout
    ensures Unnoticed(s, Step(s, e, invalidate))
    ensures forall task :: task in EffectOf(s, e, invalidate).enqueued ==> task.ProbeSlot?
  {
    hide MayEmit, MayBeDestroyed;
  }
}
