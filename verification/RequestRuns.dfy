/** A request manager on its own, driven by any sequence of completions and timers. */
module RequestRuns {
  import opened Common
  import opened Requests

  datatype Event =
    | Issue(request: Pending)
    | Respond(id: RequestId, outcome: Outcome)
    | RespondFrom(responder: PeerId, id: RequestId, outcome: Outcome)
    | PeerEnds(peer: PeerId, code: ErrorCode)
    | OwnerEnds(code: ErrorCode)
    | TimerHandler(id: RequestId, expired: bool)

  /** A timer handler runs once, and is aborted only after its request was completed. */
  predicate Enabled(r: RequestTable, e: Event) {
    e.TimerHandler? ==> e.id in r.timers && (e.expired || e.id !in r.pending)
  }

  function Step(r: RequestTable, e: Event): RequestTable {
    if !Enabled(r, e) then r else
    match e
    case Issue(request) => Add(r, request)
    case Respond(id, outcome) => Complete(r, id, outcome)
    case RespondFrom(responder, id, outcome) => CompleteOfPeer(r, responder, id, outcome)
    case PeerEnds(peer, code) => CompletePeer(r, peer, code)
    case OwnerEnds(code) => CompleteAll(r, code)
    case TimerHandler(id, expired) => TimerRuns(r, id, expired)
  }

  function Run(r: RequestTable, events: seq<Event>): RequestTable
    decreases |events|
  {
    if events == [] then r else Run(Step(r, events[0]), events[1..])
  }

  lemma StepConserves(r: RequestTable, e: Event)
    requires Conserved(r)
    ensures Conserved(Step(r, e))
  {
    hide Conserved;
    if Enabled(r, e) {
      match e
      case Issue(request) => AddConserves(r, request);
      case Respond(id, outcome) => CompleteConserves(r, id, outcome);
      case RespondFrom(_, id, outcome) => CompleteConserves(r, id, outcome);
      case PeerEnds(peer, code) => FailAllConserves(r, OfPeer(r, peer), code);
      case OwnerEnds(code) => FailAllConserves(r, r.pending.Keys, code);
      case TimerHandler(id, expired) => TimerConserves(r, id, expired);
    }
  }

  /** Exactly-once completion over every interleaving of responses, peer ends,
      owner ends and timer handlers, late ones included. */
  lemma {:induction false} EveryRunConserves(r: RequestTable, events: seq<Event>)
    requires Conserved(r)
    ensures Conserved(Run(r, events))
    decreases |events|
  {
    hide Conserved, Step;
    if events != [] {
      StepConserves(r, events[0]);
      EveryRunConserves(Step(r, events[0]), events[1..]);
    }
  }

  /** From the beginning: exactly one callback per completed request, none twice,
      and once no timer handler is outstanding, one for every request issued. */
  lemma EveryRequestCompletesOnce(events: seq<Event>, id: RequestId)
    ensures var r := Run(NoRequests, events);
            && Conserved(r)
            && (r.timers == {} && 1 <= id <= r.nextId ==> CalledBack(r, id))
  {
    EveryRunConserves(NoRequests, events);
    var r := Run(NoRequests, events);
    if r.timers == {} && 1 <= id <= r.nextId {
      NothingForgotten(r, id);
    }
  }

  /** The callbacks of `id` in `t` are those in `r`. */
  ghost predicate SameCallbacks(r: RequestTable, t: RequestTable, id: RequestId) {
    forall c: Callback :: c.id == id ==> t.callbacks[c] == r.callbacks[c]
  }

  lemma StepKeepsCompleted(r: RequestTable, e: Event, id: RequestId)
    requires 1 <= id <= r.nextId && id !in r.pending
    ensures var t := Step(r, e); id <= t.nextId && id !in t.pending && SameCallbacks(r, t, id)
  {
  }

  /** A completed request stays completed and is never called back again, whatever is
      issued, answered, ended or timed out afterwards. */
  lemma {:induction false} CompletedIsFinal(r: RequestTable, events: seq<Event>, id: RequestId)
    requires 1 <= id <= r.nextId && id !in r.pending
    ensures var t := Run(r, events); id !in t.pending && SameCallbacks(r, t, id)
    decreases |events|
  {
    hide Step;
    if events != [] {
      StepKeepsCompleted(r, events[0], id);
      CompletedIsFinal(Step(r, events[0]), events[1..], id);
    }
  }
}
