/** Facts about FIFO task queues shared by the client and the server. */
module Queues {
  import opened Common

  lemma OldOrNew<T>(q: seq<T>, added: seq<T>)
    ensures forall x :: x in q + added <==> x in q || x in added
    ensures q != [] ==> q[0] in q && forall x :: x in q[1..] ==> x in q
    ensures q != [] ==> forall x :: x in q ==> x == q[0] || x in q[1..]
  {
  }

  // --------------------------------------------------------- debounced tasks

  /** A debounced task's timer after a queued task that arms it, cancels it, or leaves it alone. */
  predicate ArmedBy(effect: Option<bool>, armed: bool) {
    if effect.Some? then effect.value else armed
  }

  /** Whether the timer will be armed once the queued tasks have run. */
  predicate WillBeArmed<T(!new)>(queue: seq<T>, effect: T -> Option<bool>, armed: bool)
    decreases |queue|
  {
    if queue == [] then armed else WillBeArmed(queue[1..], effect, ArmedBy(effect(queue[0]), armed))
  }

  lemma {:induction false} AppendArmed<T(!new)>(queue: seq<T>, added: seq<T>, effect: T -> Option<bool>, armed: bool)
    ensures WillBeArmed(queue + added, effect, armed) == WillBeArmed(added, effect, WillBeArmed(queue, effect, armed))
    decreases |queue|
  {
    if queue == [] {
      assert queue + added == added;
    } else {
      assert (queue + added)[1..] == queue[1..] + added;
      AppendArmed(queue[1..], added, effect, ArmedBy(effect(queue[0]), armed));
    }
  }

  lemma {:induction false} LeavesArmed<T(!new)>(added: seq<T>, effect: T -> Option<bool>, armed: bool)
    requires forall task :: task in added ==> effect(task) == None
    ensures WillBeArmed(added, effect, armed) == armed
    decreases |added|
  {
    if added != [] {
      assert added[0] in added;
      LeavesArmed(added[1..], effect, armed);
    }
  }

  // ------------------------------------------------------------------- weights

  /** The work the queued tasks stand for. */
  function Sum<T>(queue: seq<T>, weight: T -> nat): nat
    decreases |queue|
  {
    if queue == [] then 0 else weight(queue[0]) + Sum(queue[1..], weight)
  }

  lemma {:induction false} SumAppend<T>(queue: seq<T>, added: seq<T>, weight: T -> nat)
    ensures Sum(queue + added, weight) == Sum(queue, weight) + Sum(added, weight)
    decreases |queue|
  {
    if queue == [] {
      assert queue + added == added;
    } else {
      assert (queue + added)[1..] == queue[1..] + added;
      SumAppend(queue[1..], added, weight);
    }
  }

  lemma SumOne<T>(task: T, weight: T -> nat)
    ensures Sum([task], weight) == weight(task)
  {
    assert [task][1..] == [];
  }

  // ------------------------------------------------------------------ prefixes

  /** What precedes the first `mark`; all of it if there is none. */
  function Before<T(==)>(xs: seq<T>, mark: T): seq<T>
    decreases |xs|
  {
    if mark !in xs then xs else Before(xs[..|xs| - 1], mark)
  }

  lemma BeforeAppend<T>(xs: seq<T>, x: T, mark: T)
    ensures Before(xs + [x], mark) == if mark in xs then Before(xs, mark) else if x == mark then xs else xs + [x]
    ensures mark !in xs ==> Before(xs, mark) == xs
  {
    assert (xs + [x])[..|xs|] == xs;
  }

  lemma {:induction false} BeforeMark<T>(xs: seq<T>, mark: T, more: seq<T>)
    requires mark !in xs
    ensures Before(xs + ([mark] + more), mark) == xs
    decreases |more|
  {
    if more == [] {
      BeforeAppend(xs, mark, mark);
    } else {
      var rest := more[..|more| - 1];
      assert xs + ([mark] + more) == xs + ([mark] + rest) + [more[|more| - 1]];
      BeforeMark(xs, mark, rest);
      BeforeAppend(xs + ([mark] + rest), more[|more| - 1], mark);
    }
  }
}
