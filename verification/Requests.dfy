/** Request bookkeeping as a value: which requests are pending, which timers are
    outstanding, and the callbacks handed to the dispatcher. */
module Requests {
  import opened Common

  type PeerId = nat
  type RequestId = nat

  /** How a request ended. An answer records the connection it was read from and
      the request id the responding frame carried. */
  datatype Outcome =
    | Answered(from: PeerId, responseId: RequestId, data: Bytes)
    | Failed(code: ErrorCode)

  /** `peer` is what the owner registered; `connection` is where the request frame was sent. */
  datatype Pending = Pending(peer: Option<PeerId>, connection: PeerId)

  datatype Callback = Callback(id: RequestId, connection: PeerId, outcome: Outcome)

  /** `callbacks` is every callback ever enqueued; the order of a loop over the
      hash table is not part of it. */
  datatype RequestTable = RequestTable(
    nextId: RequestId,
    pending: map<RequestId, Pending>,
    timers: set<RequestId>,
    callbacks: multiset<Callback>)

  const NoRequests := RequestTable(0, map[], {}, multiset{})

  function Add(r: RequestTable, request: Pending): RequestTable {
    var id := r.nextId + 1;
    r.(nextId := id, pending := r.pending[id := request], timers := r.timers + {id})
  }

  function Complete(r: RequestTable, id: RequestId, outcome: Outcome): RequestTable {
    if id in r.pending then
      r.(pending := r.pending - {id},
         callbacks := r.callbacks + multiset{Callback(id, r.pending[id].connection, outcome)})
    else r
  }

  function CompleteOfPeer(r: RequestTable, peer: PeerId, id: RequestId, outcome: Outcome): RequestTable {
    if id in r.pending && r.pending[id].peer == Some(peer) then Complete(r, id, outcome) else r
  }

  function OfPeer(r: RequestTable, peer: PeerId): set<RequestId> {
    set id | id in r.pending && r.pending[id].peer == Some(peer)
  }

  function Failures(r: RequestTable, ids: set<RequestId>, code: ErrorCode): set<Callback> {
    set id | id in ids && id in r.pending :: Callback(id, r.pending[id].connection, Failed(code))
  }

  function FailAll(r: RequestTable, ids: set<RequestId>, code: ErrorCode): RequestTable {
    r.(pending := r.pending - ids, callbacks := r.callbacks + multiset(Failures(r, ids, code)))
  }

  function CompletePeer(r: RequestTable, peer: PeerId, code: ErrorCode): RequestTable {
    FailAll(r, OfPeer(r, peer), code)
  }

  function CompleteAll(r: RequestTable, code: ErrorCode): RequestTable {
    FailAll(r, r.pending.Keys, code)
  }

  /** Whether the timer handler finds its request still pending and so times it out. */
  predicate TimesOut(r: RequestTable, id: RequestId, expired: bool) {
    expired && id in r.pending
  }

  function TimerRuns(r: RequestTable, id: RequestId, expired: bool): RequestTable {
    var ran := r.(timers := r.timers - {id});
    if TimesOut(r, id, expired) then Complete(ran, id, Failed(TimedOut)) else ran
  }

  // ------------------------------------------------------------ conservation

  /** A callback was enqueued for `id`. */
  ghost predicate CalledBack(r: RequestTable, id: RequestId) {
    exists c :: c in r.callbacks && c.id == id
  }

  /** Every issued id is either pending, with its timer still to run, or has
      exactly one callback; nothing else is pending or called back. */
  ghost predicate Conserved(r: RequestTable) {
    && (forall id :: id in r.pending ==> 1 <= id <= r.nextId && id in r.timers)
    && (forall c :: c in r.callbacks ==> r.callbacks[c] == 1 && 1 <= c.id <= r.nextId && c.id !in r.pending)
    && (forall c, d :: c in r.callbacks && d in r.callbacks && c.id == d.id ==> c == d)
    && (forall id :: 1 <= id <= r.nextId && id !in r.pending ==> CalledBack(r, id))
  }

  lemma AddConserves(r: RequestTable, request: Pending)
    requires Conserved(r)
    ensures Conserved(Add(r, request))
  {
    var t := Add(r, request);
    assert t.callbacks == r.callbacks;
    forall id | 1 <= id <= t.nextId && id !in t.pending
      ensures CalledBack(t, id)
    {
      assert id <= r.nextId && CalledBack(r, id);
    }
  }

  lemma CompleteConserves(r: RequestTable, id: RequestId, outcome: Outcome)
    requires Conserved(r)
    ensures Conserved(Complete(r, id, outcome))
  {
    if id in r.pending {
      var t := Complete(r, id, outcome);
      var c := Callback(id, r.pending[id].connection, outcome);
      assert c in t.callbacks;
      forall other | 1 <= other <= t.nextId && other !in t.pending
        ensures CalledBack(t, other)
      {
        if other == id {
          assert c.id == other;
        } else {
          assert CalledBack(r, other);
          var d :| d in r.callbacks && d.id == other;
          assert d in t.callbacks;
        }
      }
    }
  }

  lemma FailAllConserves(r: RequestTable, ids: set<RequestId>, code: ErrorCode)
    requires Conserved(r) && ids <= r.pending.Keys
    ensures Conserved(FailAll(r, ids, code))
  {
    var t := FailAll(r, ids, code);
    var failures := Failures(r, ids, code);
    forall other | 1 <= other <= t.nextId && other !in t.pending
      ensures CalledBack(t, other)
    {
      if other in ids {
        var c := Callback(other, r.pending[other].connection, Failed(code));
        assert c in failures;
        assert c in t.callbacks;
      } else {
        assert CalledBack(r, other);
        var d :| d in r.callbacks && d.id == other;
        assert d in t.callbacks;
      }
    }
  }

  lemma TimerConserves(r: RequestTable, id: RequestId, expired: bool)
    requires Conserved(r)
    requires expired || id !in r.pending
    ensures Conserved(TimerRuns(r, id, expired))
  {
    if TimesOut(r, id, expired) {
      CompleteConserves(r, id, Failed(TimedOut));
      var done := Complete(r, id, Failed(TimedOut));
      var t := TimerRuns(r, id, expired);
      assert t == done.(timers := r.timers - {id});
      SameButTimers(done, t);
    } else {
      SameButTimers(r, TimerRuns(r, id, expired));
    }
  }

  lemma SameButTimers(r: RequestTable, t: RequestTable)
    requires Conserved(r) && t == r.(timers := t.timers)
    requires forall id :: id in r.pending ==> id in t.timers
    ensures Conserved(t)
  {
    forall id | 1 <= id <= t.nextId && id !in t.pending
      ensures CalledBack(t, id)
    {
      assert CalledBack(r, id);
    }
  }

  /** Once no timer handler is outstanding, every issued request has been called back. */
  lemma NothingForgotten(r: RequestTable, id: RequestId)
    requires Conserved(r) && r.timers == {} && 1 <= id <= r.nextId
    ensures CalledBack(r, id)
  {
  }

  // ------------------------------------------------------ timeout confinement

  lemma FailAllEffect(r: RequestTable, ids: set<RequestId>, code: ErrorCode, other: RequestId)
    requires other in r.pending
    ensures var t := FailAll(r, ids, code);
            && (other in t.pending <==> other !in ids)
            && (other in t.pending ==> t.pending[other] == r.pending[other])
            && (other in ids ==> Callback(other, r.pending[other].connection, Failed(code)) in t.callbacks)
            && (forall c :: c in r.callbacks ==> c in t.callbacks)
  {
    var c := Callback(other, r.pending[other].connection, Failed(code));
    assert other in ids ==> c in Failures(r, ids, code);
  }

  lemma TimerEffect(r: RequestTable, id: RequestId, other: RequestId)
    requires id in r.pending && other in r.pending && other != id
    ensures var t := TimerRuns(r, id, true);
            && Callback(id, r.pending[id].connection, Failed(TimedOut)) in t.callbacks
            && id !in t.pending && other in t.pending && t.pending[other] == r.pending[other]
  {
  }

  lemma PendingNotCalledBack(r: RequestTable, id: RequestId)
    requires Conserved(r) && id in r.pending
    ensures !CalledBack(r, id)
  {
  }

  /** What the server's expired timer does to the requests when it also closes the peer. */
  function ServerTimeout(r: RequestTable, id: RequestId, invalidate: bool): RequestTable
    requires id in r.pending && r.pending[id].peer.Some?
  {
    var timedOut := TimerRuns(r, id, true);
    if invalidate then CompletePeer(timedOut, r.pending[id].peer.value, OperationAborted) else timedOut
  }

  /** With invalidation, the expired request times out, the others of its peer are
      aborted, and those of other peers are untouched; without, only it changes. */
  lemma ServerTimeoutIsConfined(r: RequestTable, id: RequestId, other: RequestId, invalidate: bool)
    requires Conserved(r)
    requires id in r.pending && r.pending[id].peer.Some? && other in r.pending && other != id
    ensures var t := ServerTimeout(r, id, invalidate);
            var hit := invalidate && r.pending[other].peer == r.pending[id].peer;
            && Callback(id, r.pending[id].connection, Failed(TimedOut)) in t.callbacks
            && id !in t.pending
            && (other in t.pending <==> !hit)
            && (other in t.pending ==> t.pending[other] == r.pending[other] && !CalledBack(t, other))
            && (hit ==> Callback(other, r.pending[other].connection, Failed(OperationAborted)) in t.callbacks)
  {
    hide Conserved, FailAll, TimerRuns, CalledBack;
    var timedOut := TimerRuns(r, id, true);
    var mine := OfPeer(timedOut, r.pending[id].peer.value);
    var t := ServerTimeout(r, id, invalidate);
    TimerConserves(r, id, true);
    TimerEffect(r, id, other);
    FailAllConserves(timedOut, mine, OperationAborted);
    FailAllEffect(timedOut, mine, OperationAborted, other);
    FailAllOnlyRemoves(timedOut, mine, OperationAborted, id);
    if other in t.pending {
      PendingNotCalledBack(t, other);
    }
  }

  lemma FailAllOnlyRemoves(r: RequestTable, ids: set<RequestId>, code: ErrorCode, id: RequestId)
    requires id !in r.pending
    ensures id !in FailAll(r, ids, code).pending
  {
  }

  /** The client's expired timer: every other request is reset with the connection. */
  function ClientTimeout(r: RequestTable, id: RequestId, invalidate: bool): RequestTable {
    var timedOut := TimerRuns(r, id, true);
    if invalidate && id in r.pending then CompleteAll(timedOut, ConnectionReset) else timedOut
  }

  lemma ClientTimeoutIsConfined(r: RequestTable, id: RequestId, other: RequestId, invalidate: bool)
    requires Conserved(r)
    requires id in r.pending && other in r.pending && other != id
    ensures var t := ClientTimeout(r, id, invalidate);
            && Callback(id, r.pending[id].connection, Failed(TimedOut)) in t.callbacks
            && id !in t.pending
            && (other in t.pending <==> !invalidate)
            && (invalidate ==> Callback(other, r.pending[other].connection, Failed(ConnectionReset)) in t.callbacks)
            && (!invalidate ==> t.pending[other] == r.pending[other] && !CalledBack(t, other))
  {
    hide Conserved, FailAll, TimerRuns, CalledBack;
    var timedOut := TimerRuns(r, id, true);
    TimerConserves(r, id, true);
    TimerEffect(r, id, other);
    FailAllEffect(timedOut, timedOut.pending.Keys, ConnectionReset, other);
    FailAllOnlyRemoves(timedOut, timedOut.pending.Keys, ConnectionReset, id);
    PendingNotCalledBack(timedOut, other);
  }
}
