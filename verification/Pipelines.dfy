/**
 The watcher and the retry loop together: what becomes of every transaction of the log.

 Nothing is lost on the way from the watcher to the retry loop and around it. What is lost is lost by the retried
 check itself, whose results nobody looks at.
 */
module Pipelines {
  import opened Prelude
  import B = Batches
  import W = Watchers
  import R = RetryQueues

  datatype State = State(watcher: W.State, retry: R.State)

  datatype Step =
    | Watch(iteration: W.Iteration)
    | Retry(step: R.Step)

  /** What the watcher hands over is enqueued with delay. */
  function Next(s: State, step: Step): State {
    match step
    case Watch(iteration) =>
      var watcher := W.Next(s.watcher, iteration);
      var handedOver := if |watcher.retries| > |s.watcher.retries| then [watcher.retries[|s.watcher.retries|]] else [];
      State(watcher, if handedOver == [] then s.retry else R.Next(s.retry, R.EnqueueWithDelay(handedOver[0])))
    case Retry(step) => s.(retry := R.Next(s.retry, step))
  }

  function Run(s: State, steps: seq<Step>): State
    decreases |steps|
  {
    if steps == [] then s else Run(Next(s, steps[0]), steps[1..])
  }

  /** The results of a retried check are about transactions of its batch. */
  ghost predicate RetryLegal(r: R.State, step: R.Step) {
    && !step.EnqueueWithDelay?
    && (step.Settle? && step.outcome.Returns? && r.running.Some? ==>
          multiset(B.ResultIds(step.outcome.results)) <= multiset(r.running.value))
  }

  /** Only the watcher enqueues; otherwise waking, polling and checking happen in any order. */
  ghost predicate Legal(log: seq<W.Edge>, s: State, step: Step) {
    match step
    case Watch(iteration) => W.Legal(log, s.watcher, iteration)
    case Retry(step) => RetryLegal(s.retry, step)
  }

  ghost predicate LegalRun(log: seq<W.Edge>, s: State, steps: seq<Step>)
    decreases |steps|
  {
    steps == [] || (Legal(log, s, steps[0]) && LegalRun(log, Next(s, steps[0]), steps[1..]))
  }

  // ----- Where a retried transaction can be -----

  /** Delayed, queued or being checked. */
  ghost function InRetry(r: R.State): multiset<string> {
    Flat(r.delayed) + Flat(r.queue) + Flat(R.Running(r))
  }

  /** Checked again without a final verdict, and not queued again. */
  ghost function Lost(r: R.State): multiset<string> {
    multiset(r.history.again) + r.history.unanswered
  }

  ghost function Retried(r: R.State): multiset<string> {
    InRetry(r) + multiset(r.history.finals) + Lost(r)
  }

  /** What a step loses: the ids of a retried batch that fail again for a reason that may go away, or have no result. */
  ghost function Loss(r: R.State, step: R.Step): multiset<string> {
    if step.Settle? && step.outcome.Returns? && r.running.Some? then
      multiset(B.RetryIds(step.outcome.results)) +
      (multiset(r.running.value) - multiset(B.ResultIds(step.outcome.results)))
    else multiset{}
  }

  lemma FlatWithout<T>(xss: seq<seq<T>>, i: nat)
    requires i < |xss|
    ensures Flat(R.Without(xss, i)) + multiset(xss[i]) == Flat(xss)
  {
    hide Flat;
    var before, x, after := xss[..i], xss[i], xss[i + 1..];
    assert xss == before + [x] + after;
    FlatSnoc(before, x);
    FlatAppend(before + [x], after);
    FlatAppend(before, after);
    Rotate(Flat(before), multiset(x), Flat(after));
  }

  lemma Rotate<T>(a: multiset<T>, b: multiset<T>, c: multiset<T>)
    ensures a + b + c == a + c + b
  {
  }

  lemma FlatOne<T>(xs: seq<T>)
    ensures Flat([xs]) == multiset(xs)
    ensures Flat<T>([]) == multiset{}
  {
    assert [xs][1..] == [];
  }

  lemma WakeKeeps(r: R.State, i: nat)
    ensures InRetry(R.Next(r, R.Wake(i))) == InRetry(r)
  {
    hide Flat;
    if i < |r.delayed| {
      var next := R.Next(r, R.Wake(i));
      FlatWithout(r.delayed, i);
      FlatSnoc(r.queue, r.delayed[i]);
      assert Flat(next.delayed) + Flat(next.queue) == Flat(r.delayed) + Flat(r.queue);
    }
  }

  lemma PollKeeps(r: R.State)
    ensures InRetry(R.Next(r, R.Poll)) == InRetry(r)
  {
    if r.running.None? && r.queue != [] {
      var next := R.Next(r, R.Poll);
      FlatOne(r.queue[0]);
      assert Flat(r.queue) == multiset(r.queue[0]) + Flat(next.queue);
      hide Flat;
      assert Flat(R.Running(next)) + Flat(next.queue) == Flat(R.Running(r)) + Flat(r.queue);
    }
  }

  lemma ThrowKeeps(r: R.State)
    ensures InRetry(R.Next(r, R.Settle(R.Throws))) == InRetry(r)
  {
    hide Flat;
    if r.running.Some? {
      var next := R.Next(r, R.Settle(R.Throws));
      FlatOne(r.running.value);
      FlatSnoc(r.delayed, r.running.value);
      assert Flat(next.delayed) + Flat(R.Running(next)) == Flat(r.delayed) + Flat(R.Running(r));
    }
  }

  /** A returning check takes its batch out of the loop: to final verdicts, or to nowhere. */
  lemma ReturnSplits(r: R.State, results: seq<B.ProofResult>)
    requires RetryLegal(r, R.Settle(R.Returns(results)))
    ensures var next := R.Next(r, R.Settle(R.Returns(results)));
      && Retried(next) == Retried(r)
      && Lost(next) == Lost(r) + Loss(r, R.Settle(R.Returns(results)))
  {
    hide Flat, B.RetryIds, B.FinalIds, B.ResultIds;
    if r.running.Some? {
      var next, batch := R.Next(r, R.Settle(R.Returns(results))), multiset(r.running.value);
      var finals, again := multiset(B.FinalIds(results)), multiset(B.RetryIds(results));
      var unanswered := batch - multiset(B.ResultIds(results));
      B.ResultsPartition(results);
      FlatOne(r.running.value);
      assert batch == finals + again + unanswered;
      assert InRetry(r) == InRetry(next) + batch;
      assert Lost(next) == Lost(r) + (again + unanswered);
      assert multiset(next.history.finals) == multiset(r.history.finals) + finals;
      Regroup(InRetry(next), multiset(r.history.finals), Lost(r), finals, again + unanswered);
    }
  }

  lemma Regroup(loop: multiset<string>, finals: multiset<string>, lost: multiset<string>, a: multiset<string>,
                b: multiset<string>)
    ensures loop + (finals + a) + (lost + b) == (loop + (a + b)) + finals + lost
  {
  }

  lemma EnqueueAdds(r: R.State, batch: R.Batch)
    ensures Retried(R.Next(r, R.EnqueueWithDelay(batch))) == Retried(r) + multiset(batch)
    ensures Lost(R.Next(r, R.EnqueueWithDelay(batch))) == Lost(r)
  {
    hide Flat;
    FlatSnoc(r.delayed, batch);
    assert InRetry(R.Next(r, R.EnqueueWithDelay(batch))) == InRetry(r) + multiset(batch);
  }

  /** Only a returning check changes what has become of retried transactions. */
  lemma MoveKeeps(r: R.State, step: R.Step)
    requires !step.EnqueueWithDelay? && !(step.Settle? && step.outcome.Returns?)
    ensures InRetry(R.Next(r, step)) == InRetry(r) && R.Next(r, step).history == r.history
  {
    match step
    case Wake(i) => WakeKeeps(r, i);
    case Poll => PollKeeps(r);
    case Settle(outcome) => ThrowKeeps(r);
  }

  /** Every step of the loop moves transactions or settles them, and loses exactly its loss. */
  lemma RetryStepKeeps(r: R.State, step: R.Step)
    requires RetryLegal(r, step)
    ensures Retried(R.Next(r, step)) == Retried(r)
    ensures Lost(R.Next(r, step)) == Lost(r) + Loss(r, step)
  {
    if step.Settle? && step.outcome.Returns? {
      hide Retried, Lost, Loss, R.Next;
      ReturnSplits(r, step.outcome.results);
    } else {
      hide InRetry, R.Next;
      MoveKeeps(r, step);
      assert Loss(r, step) == multiset{};
    }
  }

  /** The retry loop has had exactly what the watcher handed over. */
  ghost predicate HandedOver(s: State) {
    Retried(s.retry) == Flat(s.watcher.retries)
  }

  lemma {:induction false} NextHandsOver(log: seq<W.Edge>, s: State, step: Step)
    requires HandedOver(s) && Legal(log, s, step)
    ensures HandedOver(Next(s, step))
  {
    hide Retried, Lost, R.Next;
    match step
    case Retry(retryStep) => RetryStepKeeps(s.retry, retryStep);
    case Watch(iteration) =>
      var before, after := s.watcher.retries, W.Next(s.watcher, iteration).retries;
      if |after| > |before| {
        var batch := after[|before|];
        assert after == before + [batch];
        FlatSnoc(before, batch);
        EnqueueAdds(s.retry, batch);
      } else {
        assert after == before;
      }
  }

  // ----- Every transaction is accounted for -----

  /**
   However watcher and retry loop interleave: each transaction between the first cursor and the current one has a
   final verdict, from the watcher or from a retry; or is delayed, queued or being checked; or was dropped by the
   watcher for want of an answer; or was lost on a retry.
   */
  lemma {:induction false} EveryTransactionIsAccounted(log: seq<W.Edge>, first: W.State, start: nat, s: State, p: nat,
                                                       steps: seq<Step>)
    returns (end: nat)
    requires W.Reached(log, first, start, s.watcher, p) && HandedOver(s) && LegalRun(log, s, steps)
    ensures var r := Run(s, steps);
      && p <= end <= |log|
      && W.Reached(log, first, start, r.watcher, end)
      && multiset(W.Ids(log[start..end])) ==
           multiset(r.watcher.history.finals) + r.watcher.history.dropped +
           multiset(r.retry.history.finals) + InRetry(r.retry) + Lost(r.retry)
    decreases |steps|
  {
    end := p;
    if steps != [] {
      var step := steps[0];
      if step.Watch? {
        end := W.NextReaches(log, first, start, s.watcher, p, step.iteration);
      }
      NextHandsOver(log, s, step);
      end := EveryTransactionIsAccounted(log, first, start, Next(s, step), end, steps[1..]);
    }
  }

  /** At some step of the run this transaction is lost. */
  ghost predicate LostSomewhere(s: State, steps: seq<Step>, id: string)
    decreases |steps|
  {
    steps != [] &&
    ((steps[0].Retry? && id in Loss(s.retry, steps[0].step)) || LostSomewhere(Next(s, steps[0]), steps[1..], id))
  }

  lemma {:induction false} LostIff(log: seq<W.Edge>, s: State, steps: seq<Step>, id: string)
    requires LegalRun(log, s, steps)
    ensures id in Lost(Run(s, steps).retry) <==> id in Lost(s.retry) || LostSomewhere(s, steps, id)
    decreases |steps|
  {
    if steps != [] {
      var step, next := steps[0], Next(s, steps[0]);
      LostIff(log, next, steps[1..], id);
      hide Lost, Loss, R.Next;
      match step
      case Retry(retryStep) => RetryStepKeeps(s.retry, retryStep);
      case Watch(iteration) =>
        if next.retry != s.retry {
          EnqueueAdds(s.retry, W.Next(s.watcher, iteration).retries[|s.watcher.retries|]);
        }
    }
  }

  /** The check of the batch returns, and this transaction fails again with an error worth a retry, or has no result. */
  lemma LossIff(r: R.State, results: seq<B.ProofResult>, id: string)
    requires r.running.Some?
    ensures id in Loss(r, R.Settle(R.Returns(results))) <==>
      || (exists result :: result in results && result.txId == id && B.FailedTemporarily(result))
      || multiset(B.ResultIds(results))[id] < multiset(r.running.value)[id]
  {
    B.RetryIdsOf(results, id);
  }

  function Initial(savedCursor: Option<string>, savedCount: nat, resync: bool, newest: W.Page): State {
    State(W.Startup(savedCursor, savedCount, resync, newest), R.INITIAL)
  }

  /**
   Whole runs, from startup with an empty retry queue: where each transaction of the log is, and which of them
   are lost.
   */
  lemma {:induction false} AccountSinceStartup(log: seq<W.Edge>, savedAt: nat, savedCount: nat, resync: bool,
                                               newest: W.Page,
                            length: nat, steps: seq<Step>)
    returns (start: nat, end: nat)
    requires savedAt <= |log| && length <= |log|
    requires newest == if length == 0 then W.Page([], None) else W.Page([log[length - 1]], W.CursorAt(log, length))
    requires LegalRun(log, Initial(W.CursorAt(log, savedAt), savedCount, resync, newest), steps)
    ensures var first := Initial(W.CursorAt(log, savedAt), savedCount, resync, newest);
      var r := Run(first, steps);
      && start == (if resync then savedAt else length) && start <= end <= |log|
      && r.watcher.cursor == W.CursorAt(log, end)
      && r.watcher.total == first.watcher.total + |r.watcher.history.finals|
      && multiset(W.Ids(log[start..end])) ==
           multiset(r.watcher.history.finals) + r.watcher.history.dropped +
           multiset(r.retry.history.finals) + InRetry(r.retry) + Lost(r.retry)
      && (forall id :: id in Lost(r.retry) <==> LostSomewhere(first, steps, id))
      && (Lost(r.retry) == multiset{} <==> RetriesAnswer(first, steps))
  {
    var first := Initial(W.CursorAt(log, savedAt), savedCount, resync, newest);
    start := W.StartupReaches(log, savedAt, savedCount, resync, newest, length);
    assert HandedOver(first);
    end := EveryTransactionIsAccounted(log, first.watcher, start, first, start, steps);
    forall id {
      LostIff(log, first, steps, id);
    }
    NothingIsLostIff(log, first, steps);
  }

  /** No step of the run loses anything: every retried check that returns has final verdicts for all its transactions. */
  ghost predicate RetriesAnswer(s: State, steps: seq<Step>)
    decreases |steps|
  {
    steps == [] || (StepAnswers(s, steps[0]) && RetriesAnswer(Next(s, steps[0]), steps[1..]))
  }

  ghost predicate StepAnswers(s: State, step: Step) {
    step.Retry? ==> Loss(s.retry, step.step) == multiset{}
  }

  /** Nothing is lost exactly if no retried check returns without a final verdict for all of its transactions. */
  lemma {:induction false} NothingIsLostIff(log: seq<W.Edge>, s: State, steps: seq<Step>)
    requires LegalRun(log, s, steps)
    ensures Lost(Run(s, steps).retry) == multiset{} <==> Lost(s.retry) == multiset{} && RetriesAnswer(s, steps)
    decreases |steps|
  {
    if steps != [] {
      NextLoses(log, s, steps[0]);
      NothingIsLostIff(log, Next(s, steps[0]), steps[1..]);
    }
  }

  lemma {:induction false} NextLoses(log: seq<W.Edge>, s: State, step: Step)
    requires Legal(log, s, step)
    ensures Lost(Next(s, step).retry) == multiset{} <==> Lost(s.retry) == multiset{} && StepAnswers(s, step)
  {
    hide Lost, Loss, R.Next;
    match step
    case Retry(retryStep) =>
      RetryStepKeeps(s.retry, retryStep);
      SumIsEmptyIff(Lost(s.retry), Loss(s.retry, retryStep));
    case Watch(iteration) =>
      if Next(s, step).retry != s.retry {
        EnqueueAdds(s.retry, W.Next(s.watcher, iteration).retries[|s.watcher.retries|]);
      }
  }

  lemma SumIsEmptyIff(a: multiset<string>, b: multiset<string>)
    ensures a + b == multiset{} <==> a == multiset{} && b == multiset{}
  {
    assert |a + b| == |a| + |b|;
  }
}
