/** Session tokens: a group of notifications is cancelled by moving the generation on. */
module NotificationScope {
  type Token = nat

  datatype Scope = Scope(running: bool, generation: Token) {
    predicate IsCurrent(token: Token) {
      running && generation == token
    }
  }

  const Initial := Scope(false, 0)

  function Start(s: Scope): Scope {
    s.(running := true)
  }

  function Invalidate(s: Scope): Scope {
    s.(generation := s.generation + 1)
  }

  function Stop(s: Scope): Scope {
    Invalidate(s.(running := false))
  }

  datatype Operation = Starting | Stopping | Invalidating

  function Apply(s: Scope, op: Operation): Scope {
    match op
    case Starting => Start(s)
    case Stopping => Stop(s)
    case Invalidating => Invalidate(s)
  }

  function ApplyAll(s: Scope, ops: seq<Operation>): Scope
    decreases |ops|
  {
    if ops == [] then s else ApplyAll(Apply(s, ops[0]), ops[1..])
  }

  /** A token captured before a stop or an invalidation is never current again,
      whatever is started, stopped or invalidated afterwards. */
  lemma {:induction false} CancelledForGood(s: Scope, token: Token, ops: seq<Operation>)
    requires token < s.generation
    ensures token < ApplyAll(s, ops).generation && !ApplyAll(s, ops).IsCurrent(token)
    decreases |ops|
  {
    if ops != [] {
      CancelledForGood(Apply(s, ops[0]), token, ops[1..]);
    }
  }

  /** A captured token stays current exactly while nothing but starts follow, on a running scope. */
  lemma {:induction false} CurrentUntilCancelled(s: Scope, ops: seq<Operation>)
    requires s.running
    ensures ApplyAll(s, ops).IsCurrent(s.generation) <==> forall i :: 0 <= i < |ops| ==> ops[i] == Starting
    decreases |ops|
  {
    if ops != [] {
      var t := Apply(s, ops[0]);
      assert forall i :: 1 <= i < |ops| ==> ops[1..][i - 1] == ops[i];
      if ops[0] == Starting {
        CurrentUntilCancelled(t, ops[1..]);
      } else {
        CancelledForGood(t, s.generation, ops[1..]);
      }
    }
  }

  /** A scope runs exactly if its last start comes after its last stop. */
  predicate LastCallStarts(running: bool, ops: seq<Operation>) {
    || (running && Stopping !in ops)
    || exists i :: 0 <= i < |ops| && ops[i] == Starting && Stopping !in ops[i..]
  }

  lemma {:induction false} RunsWhileLastStarted(s: Scope, ops: seq<Operation>)
    ensures ApplyAll(s, ops).running <==> LastCallStarts(s.running, ops)
    decreases |ops|
  {
    if ops != [] {
      var t, rest := Apply(s, ops[0]), ops[1..];
      RunsWhileLastStarted(t, rest);
      assert forall i :: 0 <= i < |rest| ==> rest[i] == ops[i + 1] && rest[i..] == ops[i + 1..];
      if LastCallStarts(t.running, rest) {
        if i :| 0 <= i < |rest| && rest[i] == Starting && Stopping !in rest[i..] {
          assert ops[i + 1] == Starting && Stopping !in ops[i + 1..];
        } else if ops[0] == Starting {
          assert ops[0..] == [ops[0]] + rest;
        }
      }
      if i :| 0 <= i < |ops| && ops[i] == Starting && Stopping !in ops[i..] {
        if i > 0 {
          assert rest[i - 1] == Starting && Stopping !in rest[i - 1..];
        } else {
          assert forall op :: op in rest ==> op in ops[0..];
        }
      }
    }
  }

  /** The scope object itself. */
  class NotificationScope {
    var running: bool
    var generation: Token

    function View(): Scope
      reads this
    {
      Scope(running, generation)
    }

    constructor ()
      ensures View() == Initial
    {
      running, generation := false, 0;
    }

    method Start()
      modifies this
      ensures View() == Apply(old(View()), Starting)
    {
      running := true;
    }

    method Invalidate()
      modifies this
      ensures View() == Apply(old(View()), Invalidating)
    {
      generation := generation + 1;
    }

    method Stop()
      modifies this
      ensures View() == Apply(old(View()), Stopping)
      ensures forall token: Token :: token <= old(generation) ==> !View().IsCurrent(token)
    {
      running := false;
      Invalidate();
    }

    method Capture() returns (token: Token)
      ensures running ==> View().IsCurrent(token)
      ensures token == generation
    {
      token := generation;
    }
  }
}
