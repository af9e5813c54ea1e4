/** The request manager class, proved against the value model. */
module RequestManager {
  import opened Common
  import opened Requests
  import R = Requests

  class RequestManager {
    var nextRequestId: RequestId
    var pendingRequests: map<RequestId, Pending>
    var timers: set<RequestId>
    // the dispatcher queue, as far as request callbacks are concerned
    var queue: seq<Callback>

    ghost function View(): RequestTable
      reads this
    {
      RequestTable(nextRequestId, pendingRequests, timers, multiset(queue))
    }

    ghost predicate Valid()
      reads this
    {
      Conserved(View())
    }

    constructor ()
      ensures View() == NoRequests && Valid()
    {
      nextRequestId, pendingRequests, timers, queue := 0, map[], {}, [];
    }

    method Add(request: Pending) returns (id: RequestId)
      requires Valid()
      modifies this
      ensures View() == R.Add(old(View()), request) && Valid()
      ensures id == View().nextId && id !in old(pendingRequests) && queue == old(queue)
    {
      hide Conserved;
      AddConserves(View(), request);
      NextIdIsFresh(View());
      nextRequestId := nextRequestId + 1;
      id := nextRequestId;
      timers := timers + {id};
      pendingRequests := pendingRequests[id := request];
    }

    method CompleteRequest(id: RequestId, request: Pending, outcome: Outcome)
      modifies `queue
      ensures queue == old(queue) + [Callback(id, request.connection, outcome)]
    {
      queue := queue + [Callback(id, request.connection, outcome)];
    }

    method Complete(id: RequestId, outcome: Outcome)
      requires Valid()
      modifies `pendingRequests, `queue
      ensures View() == R.Complete(old(View()), id, outcome) && Valid()
      ensures old(queue) <= queue
    {
      CompleteConserves(View(), id, outcome);
      if id in pendingRequests {
        var node := pendingRequests[id];
        pendingRequests := pendingRequests - {id};
        CompleteRequest(id, node, outcome);
      }
    }

    method CompleteFromPeer(peer: PeerId, id: RequestId, outcome: Outcome)
      requires Valid()
      modifies `pendingRequests, `queue
      ensures View() == CompleteOfPeer(old(View()), peer, id, outcome) && Valid()
      ensures old(queue) <= queue
    {
      if id !in pendingRequests || pendingRequests[id].peer != Some(peer) {
        return;
      }
      Complete(id, outcome);
    }

    /** One loop over the table in any order; the callbacks are those of the peer's
        requests, each once, after everything queued before. */
    method CompletePeer(peer: PeerId, code: ErrorCode)
      requires Valid()
      modifies `pendingRequests, `queue
      ensures View() == R.CompletePeer(old(View()), peer, code) && Valid()
      ensures old(queue) <= queue
    {
      hide FailAll, Failures, Conserved;
      ghost var before := View();
      FailAllConserves(before, OfPeer(before, peer), code);
      FailNone(before, code);
      var todo := pendingRequests.Keys;
      assert OfPeer(before, peer) - todo == {};
      while todo != {}
        invariant todo <= pendingRequests.Keys
        invariant todo <= before.pending.Keys
        invariant View() == FailAll(before, OfPeer(before, peer) - todo, code)
        invariant old(queue) <= queue
        decreases |todo|
      {
        var id :| id in todo;
        ghost var done := OfPeer(before, peer) - todo;
        todo := todo - {id};
        FailOneMore(before, done, id, code);
        if pendingRequests[id].peer == Some(peer) {
          assert OfPeer(before, peer) - todo == done + {id};
          var node := pendingRequests[id];
          pendingRequests := pendingRequests - {id};
          CompleteRequest(id, node, Failed(code));
        } else {
          assert OfPeer(before, peer) - todo == done;
        }
      }
      assert OfPeer(before, peer) - todo == OfPeer(before, peer);
    }

    method CompleteAll(code: ErrorCode)
      requires Valid()
      modifies `pendingRequests, `queue
      ensures View() == R.CompleteAll(old(View()), code) && Valid()
      ensures pendingRequests == map[] && old(queue) <= queue
    {
      hide FailAll, Failures, Conserved;
      ghost var before := View();
      FailAllConserves(before, before.pending.Keys, code);
      FailNone(before, code);
      var requests := pendingRequests;
      pendingRequests := map[];
      var todo := requests.Keys;
      assert before.pending.Keys - todo == {};
      while todo != {}
        invariant todo <= requests.Keys && requests == before.pending && pendingRequests == map[]
        invariant multiset(queue) == FailAll(before, before.pending.Keys - todo, code).callbacks
        invariant old(queue) <= queue
        decreases |todo|
      {
        var id :| id in todo;
        ghost var done := before.pending.Keys - todo;
        todo := todo - {id};
        FailOneMore(before, done, id, code);
        assert before.pending.Keys - todo == done + {id};
        CompleteRequest(id, requests[id], Failed(code));
      }
      assert before.pending.Keys - todo == before.pending.Keys;
      FailEverything(before, code);
    }

    /** The timer handler. The caller's timeout action runs only when `timedOut`. */
    method TimerHandler(id: RequestId, expired: bool) returns (timedOut: bool)
      requires Valid() && id in timers && (expired || id !in pendingRequests)
      modifies this
      ensures View() == TimerRuns(old(View()), id, expired) && Valid()
      ensures timedOut <==> expired && id in old(pendingRequests)
      ensures old(queue) <= queue
    {
      TimerConserves(View(), id, expired);
      ghost var before := View();
      timedOut := false;
      if expired && id in pendingRequests {
        Complete(id, Failed(TimedOut));
        timedOut := true;
      }
      timers := timers - {id};
      assert View() == TimerRuns(before, id, expired);
    }
  }

  lemma NextIdIsFresh(r: RequestTable)
    requires Conserved(r)
    ensures r.nextId + 1 !in r.pending
  {
  }

  lemma FailEverything(r: RequestTable, code: ErrorCode)
    ensures var t := FailAll(r, r.pending.Keys, code); t == r.(pending := map[], callbacks := t.callbacks)
  {
    assert r.pending - r.pending.Keys == map[];
  }

  lemma FailNone(r: RequestTable, code: ErrorCode)
    ensures FailAll(r, {}, code) == r
  {
    assert Failures(r, {}, code) == {};
    assert r.pending - {} == r.pending;
  }

  lemma FailOneMore(r: RequestTable, ids: set<RequestId>, id: RequestId, code: ErrorCode)
    requires id in r.pending && id !in ids
    ensures FailAll(r, ids + {id}, code) == R.Complete(FailAll(r, ids, code), id, Failed(code))
    ensures id in FailAll(r, ids, code).pending && FailAll(r, ids, code).pending[id] == r.pending[id]
  {
    var c := Callback(id, r.pending[id].connection, Failed(code));
    assert Failures(r, ids + {id}, code) == Failures(r, ids, code) + {c};
    assert c !in Failures(r, ids, code);
    assert r.pending - (ids + {id}) == r.pending - ids - {id};
    assert multiset(Failures(r, ids, code) + {c}) == multiset(Failures(r, ids, code)) + multiset{c};
  }
}
