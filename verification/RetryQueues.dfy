/**
 The retry loop. A batch waits out a delay, then queues, then is checked again; if the check throws, it is
 delayed once more. The queue the loop polls is the queue it re-enqueues into. The results of a check that does
 not throw are not looked at: what fails again for a reason that may go away is not queued once more.
 */
module RetryQueues {
  import opened Prelude
  import opened Queues
  import opened Batches

  type Batch = seq<string>

  /** What became of the batches whose check did not throw; the program does not keep it. */
  datatype History = History(
    completed: seq<Batch>,
    finals: seq<string>,            // ids that got a final verdict
    again: seq<string>,             // ids that failed again with an error worth a retry
    unanswered: multiset<string>    // ids without any result
  )

  const NO_HISTORY := History([], [], [], multiset{})

  function Extend(h: History, batch: Batch, results: seq<ProofResult>): History {
    History(h.completed + [batch], h.finals + FinalIds(results), h.again + RetryIds(results),
            h.unanswered + (multiset(batch) - multiset(ResultIds(results))))
  }

  /** `running` is the batch being checked. */
  datatype State = State(delayed: seq<Batch>, queue: seq<Batch>, running: Option<Batch>, history: History)

  const INITIAL := State([], [], None, NO_HISTORY)

  datatype Outcome = Throws | Returns(results: seq<ProofResult>)

  datatype Step =
    | EnqueueWithDelay(batch: Batch)
    | Wake(i: nat)               // the delay of batch number `i` is over
    | Poll                       // the loop looks at the queue
    | Settle(outcome: Outcome)   // the check in progress ends

  function Without<T>(xs: seq<T>, i: nat): seq<T>
    requires i < |xs|
  {
    xs[..i] + xs[i + 1..]
  }

  function Next(s: State, step: Step): State {
    match step
    case EnqueueWithDelay(batch) => s.(delayed := s.delayed + [batch])
    case Wake(i) =>
      if i < |s.delayed| then s.(delayed := Without(s.delayed, i), queue := s.queue + [s.delayed[i]]) else s
    case Poll =>
      if s.running.Some? || s.queue == [] then s
      else if s.queue[0] == [] then s.(queue := s.queue[1..])
      else s.(queue := s.queue[1..], running := Some(s.queue[0]))
    case Settle(outcome) =>
      if s.running.None? then s
      else if outcome.Throws? then s.(running := None, delayed := s.delayed + [s.running.value])
      else s.(running := None, history := Extend(s.history, s.running.value, outcome.results))
  }

  function Run(s: State, steps: seq<Step>): State
    decreases |steps|
  {
    if steps == [] then s else Run(Next(s, steps[0]), steps[1..])
  }

  function Running(s: State): seq<Batch> {
    if s.running.Some? then [s.running.value] else []
  }

  // ----- Batches are conserved -----

  /** All batches, wherever they are. */
  ghost function Everywhere(s: State): multiset<Batch> {
    multiset(s.delayed) + multiset(s.queue) + multiset(Running(s)) + multiset(s.history.completed)
  }

  ghost function NonEmpty(batches: multiset<Batch>): multiset<Batch> {
    batches[[] := 0]
  }

  ghost function Enqueued(steps: seq<Step>): multiset<Batch> {
    if steps == [] then multiset{}
    else (if steps[0].EnqueueWithDelay? then multiset{steps[0].batch} else multiset{}) + Enqueued(steps[1..])
  }

  lemma MultisetWithout<T>(xs: seq<T>, i: nat)
    requires i < |xs|
    ensures multiset(Without(xs, i)) + multiset{xs[i]} == multiset(xs)
  {
    assert xs == xs[..i] + [xs[i]] + xs[i + 1..];
  }

  lemma WakeConserves(s: State, i: nat)
    ensures Everywhere(Next(s, Wake(i))) == Everywhere(s)
  {
    if i < |s.delayed| {
      var next := Next(s, Wake(i));
      MultisetWithout(s.delayed, i);
      assert multiset(next.delayed) + multiset(next.queue) == multiset(s.delayed) + multiset(s.queue);
    }
  }

  lemma QueueSplits(queue: seq<Batch>)
    requires queue != []
    ensures multiset(queue) == multiset{queue[0]} + multiset(queue[1..])
  {
    assert queue == [queue[0]] + queue[1..];
  }

  lemma PollConserves(s: State)
    ensures var next := Next(s, Poll);
      Everywhere(next) == Everywhere(s) || Everywhere(next) + multiset{[]} == Everywhere(s)
  {
    if s.running.None? && s.queue != [] {
      var next, first := Next(s, Poll), s.queue[0];
      QueueSplits(s.queue);
      var a, b, c := multiset(s.delayed), multiset(s.queue[1..]), multiset(s.history.completed);
      assert Everywhere(s) == a + (multiset{first} + b) + multiset{} + c;
      if first == [] {
        assert Everywhere(next) == a + b + multiset{} + c;
      } else {
        assert Running(next) == [first] && multiset([first]) == multiset{first};
        assert Everywhere(next) == a + b + multiset{first} + c;
      }
      hide Everywhere, Next;
      MovesOver(a, b, multiset{first}, c);
    }
  }

  lemma MovesOver(a: multiset<Batch>, b: multiset<Batch>, x: multiset<Batch>, c: multiset<Batch>)
    ensures a + (x + b) + multiset{} + c == a + b + x + c
    ensures a + (x + b) + multiset{} + c == a + b + multiset{} + c + x
  {
  }

  lemma SettleConserves(s: State, outcome: Outcome)
    ensures Everywhere(Next(s, Settle(outcome))) == Everywhere(s)
  {
    if s.running.Some? {
      assert multiset(Running(s)) == multiset{s.running.value};
    }
  }

  lemma NextConserves(s: State, step: Step)
    ensures NonEmpty(Everywhere(Next(s, step))) == NonEmpty(Everywhere(s) + Enqueued([step]))
  {
    hide Everywhere, NonEmpty;
    OneEnqueued(s, step);
    match step
    case EnqueueWithDelay(batch) => EnqueueConserves(s, batch);
    case Wake(i) => WakeConserves(s, i);
    case Poll =>
      PollConserves(s);
      NonEmptyIgnores(Everywhere(Next(s, Poll)));
    case Settle(outcome) => SettleConserves(s, outcome);
  }

  lemma EnqueueConserves(s: State, batch: Batch)
    ensures Everywhere(Next(s, EnqueueWithDelay(batch))) == Everywhere(s) + multiset{batch}
  {
  }

  lemma OneEnqueued(s: State, step: Step)
    ensures Everywhere(s) + Enqueued([step]) ==
      if step.EnqueueWithDelay? then Everywhere(s) + multiset{step.batch} else Everywhere(s)
  {
    hide Everywhere;
    assert [step][1..] == [];
  }

  lemma NonEmptyIgnores(batches: multiset<Batch>)
    ensures NonEmpty(batches + multiset{[]}) == NonEmpty(batches)
  {
  }

  /**
   In every run, each non-empty batch that was ever enqueued is in exactly one place: delayed, queued, being
   checked, or completed.
   */
  lemma {:induction false} BatchesAreConserved(s: State, steps: seq<Step>)
    ensures NonEmpty(Everywhere(Run(s, steps))) == NonEmpty(Everywhere(s) + Enqueued(steps))
    decreases |steps|
  {
    hide NonEmpty, Everywhere;
    if steps == [] {
      assert Everywhere(s) + Enqueued(steps) == Everywhere(s);
    } else {
      var next := Next(s, steps[0]);
      NextConserves(s, steps[0]);
      BatchesAreConserved(next, steps[1..]);
      assert Enqueued(steps) == Enqueued([steps[0]]) + Enqueued(steps[1..]) by {
        assert [steps[0]][1..] == [];
      }
      NonEmptyAdds(Everywhere(next), Everywhere(s) + Enqueued([steps[0]]), Enqueued(steps[1..]));
      assert Everywhere(s) + Enqueued([steps[0]]) + Enqueued(steps[1..]) == Everywhere(s) + Enqueued(steps);
    }
  }

  lemma NonEmptyAdds(a: multiset<Batch>, b: multiset<Batch>, c: multiset<Batch>)
    requires NonEmpty(a) == NonEmpty(b)
    ensures NonEmpty(a + c) == NonEmpty(b + c)
  {
    assert forall x :: x != [] ==> a[x] == NonEmpty(a)[x] && b[x] == NonEmpty(b)[x];
    assert forall x :: NonEmpty(a + c)[x] == NonEmpty(b + c)[x];
  }

  // ----- Progress -----

  /** The loop takes and finishes one batch after the other; `results` are those of the checks, none of which throws. */
  function Drain(results: seq<seq<ProofResult>>): seq<Step> {
    if results == [] then [] else [Poll, Settle(Returns(results[0]))] + Drain(results[1..])
  }

  function Kept(batches: seq<Batch>): seq<Batch> {
    if batches == [] then [] else (if batches[0] == [] then [] else [batches[0]]) + Kept(batches[1..])
  }

  /** First in, first out, and only empty batches vanish. */
  lemma {:induction false} DrainCompletesInOrder(s: State, results: seq<seq<ProofResult>>)
    requires s.running.None? && |results| == |s.queue|
    ensures var r := Run(s, Drain(results));
      r.delayed == s.delayed && r.queue == [] && r.running.None?
      && r.history.completed == s.history.completed + Kept(s.queue)
    decreases |s.queue|
  {
    if s.queue == [] {
      assert s.history.completed + Kept(s.queue) == s.history.completed;
    } else {
      var steps := Drain(results);
      assert steps[0] == Poll && steps[1..][0] == Settle(Returns(results[0])) && steps[1..][1..] == Drain(results[1..]);
      var next := Next(Next(s, Poll), Settle(Returns(results[0])));
      DrainCompletesInOrder(next, results[1..]);
      assert next.history.completed + Kept(next.queue) == s.history.completed + Kept(s.queue);
    }
  }

  /** A batch whose check throws comes round again, behind everything that is queued by then. */
  lemma ThrowingBatchComesRound(s: State, results: seq<seq<ProofResult>>)
    requires s.running.Some? && s.running.value != [] && |results| == |s.queue| + 1
    ensures var r := Run(s, [Settle(Throws), Wake(|s.delayed|)] + Drain(results));
      r.delayed == s.delayed && r.queue == [] && r.running.None?
      && r.history.completed == s.history.completed + Kept(s.queue) + [s.running.value]
  {
    var batch, n := s.running.value, |s.delayed|;
    var steps := [Settle(Throws), Wake(n)] + Drain(results);
    assert steps[1..][0] == Wake(n) && steps[1..][1..] == Drain(results);
    var middle := Next(Next(s, Settle(Throws)), Wake(n));
    assert Without(s.delayed + [batch], n) == s.delayed;
    assert middle == State(s.delayed, s.queue + [batch], None, s.history);
    DrainCompletesInOrder(middle, results);
    KeptSnoc(s.queue, batch);
  }

  lemma {:induction false} KeptSnoc(batches: seq<Batch>, last: Batch)
    requires last != []
    ensures Kept(batches + [last]) == Kept(batches) + [last]
  {
    if batches == [] {
      assert batches + [last] == [last] && [last][1..] == [];
    } else {
      assert (batches + [last])[1..] == batches[1..] + [last];
      KeptSnoc(batches[1..], last);
    }
  }

  // ----- The program -----

  class RetryLoop {
    const queue: Queue<Batch>
    var delayed: seq<Batch>
    var running: Option<Batch>
    ghost var history: History

    ghost function Contents(): State
      reads this, queue
    {
      State(delayed, queue.items, running, history)
    }

    constructor ()
      ensures Contents() == INITIAL && fresh(queue)
    {
      queue := new Queue();
      delayed, running, history := [], None, NO_HISTORY;
    }

    method EnqueueWithDelay(batch: Batch)
      modifies this
      ensures Contents() == Next(old(Contents()), Step.EnqueueWithDelay(batch))
    {
      delayed := delayed + [batch];
    }

    method Wake(i: nat)
      requires i < |delayed|
      modifies this, queue
      ensures Contents() == Next(old(Contents()), Step.Wake(i))
    {
      queue.Enqueue(delayed[i]);
      delayed := delayed[..i] + delayed[i + 1..];
    }

    /** The loop body up to the check; while a check is awaited the loop does not come here. */
    method Poll()
      requires running.None?
      modifies this, queue
      ensures Contents() == Next(old(Contents()), Step.Poll)
    {
      if !queue.IsEmpty() {
        var proofs := queue.Dequeue();
        if proofs.Some? && |proofs.value| > 0 {
          running := proofs;
        }
      }
    }

    /** The rest of the loop body: the results of a check that does not throw are not looked at. */
    method Settle(outcome: Outcome)
      requires running.Some?
      modifies this
      ensures Contents() == Next(old(Contents()), Step.Settle(outcome))
    {
      var proofs := running.value;
      running := None;
      if outcome.Throws? {
        EnqueueWithDelay(proofs);
      } else {
        history := Extend(history, proofs, outcome.results);
      }
    }
  }
}
