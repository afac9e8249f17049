/**
 The pool of worker threads that runs the CPU heavy checks.

 A reply of a worker fires two listeners: the permanent one, which runs a waiting call while the worker is
 still taken, and the once-listener of the request, which delivers the reply, frees the worker and runs a
 waiting call again. `Pool` is the state both listeners and `execute` work on; the class below performs the
 same steps in place.
 */
module WorkerPools {
  import opened Prelude

  type WorkerId = nat
  type PromiseId = nat

  datatype Request =
    | EvmVerifyMessage(daPublication: string, signature: string)
    | BundlrVerifyReceipt(uploadResponse: string)

  datatype Response = Address(address: string) | Verified(valid: bool)

  /** A promise is unsettled, follows another promise, or carries a reply. */
  datatype PromiseState = Pending | Chained(next: PromiseId) | Resolved(value: Response)

  /** `asked` records for which request the promise was handed out. */
  datatype Promise = Promise(asked: Request, state: PromiseState)

  /** A queued closure: when run, it settles `promise` with a new call of `execute(request)`. */
  datatype Waiter = Waiter(request: Request, promise: PromiseId)

  datatype Pool = Pool(
    workers: seq<WorkerId>,        // the free list
    queue: seq<Waiter>,
    once: seq<seq<PromiseId>>,     // per worker: the promises its once-listeners settle
    inbox: seq<seq<Request>>,      // per worker: requests posted to it and not replied to yet
    promises: seq<Promise>
  )

  function Initial(size: nat): Pool {
    Pool(seq(size, i => i), [], seq(size, _ => []), seq(size, _ => []), [])
  }

  /** Every index the pool stores is in range. */
  ghost predicate Wf(s: Pool) {
    && |s.once| == |s.inbox|
    && (forall i :: 0 <= i < |s.workers| ==> s.workers[i] < |s.once|)
    && (forall i :: 0 <= i < |s.queue| ==> s.queue[i].promise < |s.promises|)
    && (forall w, j :: 0 <= w < |s.once| && 0 <= j < |s.once[w]| ==> s.once[w][j] < |s.promises|)
  }

  /** New promises may appear and unsettled ones may settle; nothing else changes. */
  ghost predicate Extends(before: seq<Promise>, after: seq<Promise>) {
    && |before| <= |after|
    && forall p :: 0 <= p < |before| ==>
         after[p].asked == before[p].asked && (before[p].state.Pending? || after[p] == before[p])
  }

  /** A promise that is settled ignores later attempts to settle it. */
  function Settle(promises: seq<Promise>, p: PromiseId, state: PromiseState): (res: seq<Promise>)
    requires p < |promises|
    ensures |res| == |promises| && Extends(promises, res)
  {
    if promises[p].state.Pending? then promises[p := promises[p].(state := state)] else promises
  }

  function Execute(s: Pool, r: Request): (res: (Pool, PromiseId))
    requires Wf(s)
    ensures Wf(res.0) && res.1 == |s.promises| && |res.0.promises| == res.1 + 1
    ensures |res.0.once| == |s.once| && Extends(s.promises, res.0.promises)
  {
    var p := |s.promises|;
    var promises := s.promises + [Promise(r, Pending)];
    if s.workers == [] then
      (s.(queue := s.queue + [Waiter(r, p)], promises := promises), p)
    else
      var w := s.workers[0];
      (s.(workers := s.workers[1..],
          once := s.once[w := s.once[w] + [p]],
          inbox := s.inbox[w := s.inbox[w] + [r]],
          promises := promises), p)
  }

  /** `this.queue.shift()?.()` */
  function RunWaiter(s: Pool): (t: Pool)
    requires Wf(s)
    ensures Wf(t) && |t.once| == |s.once| && Extends(s.promises, t.promises)
  {
    if s.queue == [] then s
    else
      var (t, p) := Execute(s.(queue := s.queue[1..]), s.queue[0].request);
      t.(promises := Settle(t.promises, s.queue[0].promise, Chained(p)))
  }

  /** One once-listener of worker `w`: it removes itself, delivers, frees the worker and runs a waiter. */
  function FireOnce(s: Pool, w: WorkerId, p: PromiseId, reply: Response): (t: Pool)
    requires Wf(s) && w < |s.once| && p < |s.promises|
    ensures Wf(t) && |t.once| == |s.once| && Extends(s.promises, t.promises)
  {
    RunWaiter(s.(once := s.once[w := if s.once[w] == [] then [] else s.once[w][1..]],
                 promises := Settle(s.promises, p, Resolved(reply)),
                 workers := s.workers + [w]))
  }

  function FireAll(s: Pool, w: WorkerId, fired: seq<PromiseId>, reply: Response): (t: Pool)
    requires Wf(s) && w < |s.once| && forall j :: 0 <= j < |fired| ==> fired[j] < |s.promises|
    ensures Wf(t) && |t.once| == |s.once| && Extends(s.promises, t.promises)
    decreases |fired|
  {
    if fired == [] then s
    else
      FireAll(FireOnce(s, w, fired[0], reply), w, fired[1..], reply)
  }

  predicate CanReply(s: Pool, w: WorkerId) {
    w < |s.inbox| && s.inbox[w] != []
  }

  /** The worker takes its first request off its inbox and its reply runs all listeners present at that moment. */
  function Message(s: Pool, w: WorkerId, work: Request -> Response): (t: Pool)
    requires Wf(s) && CanReply(s, w)
    ensures Wf(t) && |t.once| == |s.once| && Extends(s.promises, t.promises)
  {
    var taken := s.(inbox := s.inbox[w := s.inbox[w][1..]]);
    FireAll(RunWaiter(taken), w, s.once[w], work(s.inbox[w][0]))
  }

  datatype Event = Call(request: Request) | Reply(worker: WorkerId)

  /** A worker to which nothing is posted does not reply: such an event leaves the pool as it is. */
  function Step(s: Pool, e: Event, work: Request -> Response): (t: Pool)
    requires Wf(s)
    ensures Wf(t) && |t.once| == |s.once| && Extends(s.promises, t.promises)
  {
    match e
    case Call(r) => Execute(s, r).0
    case Reply(w) => if CanReply(s, w) then Message(s, w, work) else s
  }

  function Run(s: Pool, events: seq<Event>, work: Request -> Response): (t: Pool)
    requires Wf(s)
    ensures Wf(t) && |t.once| == |s.once| && Extends(s.promises, t.promises)
    decreases |events|
  {
    if events == [] then s else Run(Step(s, events[0], work), events[1..], work)
  }

  // ----- The invariant -----

  function Requests(queue: seq<Waiter>): seq<Request> {
    seq(|queue|, i requires 0 <= i < |queue| => queue[i].request)
  }

  function Waiting(queue: seq<Waiter>): seq<PromiseId> {
    seq(|queue|, i requires 0 <= i < |queue| => queue[i].promise)
  }

  /** All places that will settle a promise: the queue and the once-listeners. */
  ghost function Held(s: Pool): multiset<PromiseId> {
    multiset(Waiting(s.queue)) + Flat(s.once)
  }

  /** Requests accepted and not replied to. */
  ghost function Outstanding(s: Pool): multiset<Request> {
    multiset(Requests(s.queue)) + Flat(s.inbox)
  }

  ghost predicate Free(s: Pool, w: WorkerId)
    requires Wf(s) && w < |s.once|
  {
    s.once[w] == [] && s.inbox[w] == []
  }

  /** Exactly one request in flight, and exactly one once-listener, whose promise is the one for that request. */
  ghost predicate Busy(s: Pool, w: WorkerId)
    requires Wf(s) && w < |s.once|
  {
    |s.once[w]| == 1 && |s.inbox[w]| == 1 && s.promises[s.once[w][0]].asked == s.inbox[w][0]
  }

  /** A worker whose reply has arrived but whose once-listener has not run yet. */
  ghost predicate Replying(s: Pool, w: WorkerId)
    requires Wf(s) && w < |s.once|
  {
    w !in s.workers && |s.once[w]| == 1 && s.inbox[w] == []
  }

  ghost predicate Chains(s: Pool, work: Request -> Response) {
    forall p :: 0 <= p < |s.promises| ==>
      match s.promises[p].state
      case Pending => true
      case Chained(q) => p < q < |s.promises| && s.promises[q].asked == s.promises[p].asked
      case Resolved(v) => v == work(s.promises[p].asked)
  }

  /** The invariant without the promise count; `replying` are workers in the middle of a message. */
  ghost predicate Shape(s: Pool, work: Request -> Response, replying: set<WorkerId>) {
    && Wf(s)
    && Distinct(s.workers)
    && (forall w :: 0 <= w < |s.once| ==>
          if w in replying then Replying(s, w) else if w in s.workers then Free(s, w) else Busy(s, w))
    && (forall i :: 0 <= i < |s.queue| ==> s.promises[s.queue[i].promise].asked == s.queue[i].request)
    && Chains(s, work)
  }

  ghost predicate CountsPending(held: multiset<PromiseId>, promises: seq<Promise>) {
    forall p: PromiseId :: held[p] == if p < |promises| && promises[p].state.Pending? then 1 else 0
  }

  /** Every unsettled promise is settled by exactly one place; a settled one by none. */
  ghost predicate HeldOnce(s: Pool) {
    CountsPending(Held(s), s.promises)
  }

  ghost predicate Inv(s: Pool, work: Request -> Response) {
    Shape(s, work, {}) && HeldOnce(s) && (s.queue != [] ==> s.workers == [])
  }

  lemma QueuePushes(queue: seq<Waiter>, waiter: Waiter)
    ensures multiset(Waiting(queue + [waiter])) == multiset(Waiting(queue)) + multiset{waiter.promise}
    ensures multiset(Requests(queue + [waiter])) == multiset(Requests(queue)) + multiset{waiter.request}
  {
    assert Waiting(queue + [waiter]) == Waiting(queue) + [waiter.promise];
    assert Requests(queue + [waiter]) == Requests(queue) + [waiter.request];
  }

  lemma QueueShifts(queue: seq<Waiter>)
    requires queue != []
    ensures multiset(Waiting(queue)) == multiset{queue[0].promise} + multiset(Waiting(queue[1..]))
    ensures multiset(Requests(queue)) == multiset{queue[0].request} + multiset(Requests(queue[1..]))
  {
    assert Waiting(queue) == [queue[0].promise] + Waiting(queue[1..]);
    assert Requests(queue) == [queue[0].request] + Requests(queue[1..]);
  }

  lemma FlatAppends<T>(xss: seq<seq<T>>, w: nat, x: T)
    requires w < |xss|
    ensures Flat(xss[w := xss[w] + [x]]) == Flat(xss) + multiset{x}
  {
    FlatUpdate(xss, w, xss[w] + [x]);
    assert multiset(xss[w] + [x]) == multiset(xss[w]) + multiset{x};
  }

  lemma ExecuteAccounts(s: Pool, r: Request)
    requires Wf(s)
    ensures Held(Execute(s, r).0) == Held(s) + multiset{|s.promises|}
    ensures Outstanding(Execute(s, r).0) == Outstanding(s) + multiset{r}
  {
    var t, p: PromiseId := Execute(s, r).0, |s.promises|;
    if s.workers == [] {
      assert t.once == s.once && t.inbox == s.inbox;
      QueuePushes(s.queue, Waiter(r, |s.promises|));
    } else {
      var w := s.workers[0];
      assert t.queue == s.queue && t.once == s.once[w := s.once[w] + [|s.promises|]];
      assert t.inbox == s.inbox[w := s.inbox[w] + [r]];
      FlatAppends(s.once, w, p);
      FlatAppends(s.inbox, w, r);
      assert Held(t) == multiset(Waiting(s.queue)) + (Flat(s.once) + multiset{p});
      assert Outstanding(t) == multiset(Requests(s.queue)) + (Flat(s.inbox) + multiset{r});
    }
  }

  lemma {:induction false} ExecuteKeepsShape(s: Pool, r: Request, work: Request -> Response, replying: set<WorkerId>)
    requires Shape(s, work, replying)
    ensures Shape(Execute(s, r).0, work, replying)
  {
    var t := Execute(s, r).0;
    if s.workers != [] {
      var w := s.workers[0];
      assert w in s.workers && w !in t.workers;
      assert forall x :: x in t.workers <==> x in s.workers && x != w;
    }
  }

  lemma PopAccounts(s: Pool)
    requires s.queue != []
    ensures var popped := s.(queue := s.queue[1..]);
      && Held(s) == multiset{s.queue[0].promise} + Held(popped)
      && Outstanding(s) == multiset{s.queue[0].request} + Outstanding(popped)
  {
    hide Flat, Waiting, Requests;
    QueueShifts(s.queue);
  }

  lemma RunWaiterExecutes(s: Pool)
    requires Wf(s) && s.queue != []
    ensures var t := Execute(s.(queue := s.queue[1..]), s.queue[0].request).0;
      Held(RunWaiter(s)) == Held(t) && Outstanding(RunWaiter(s)) == Outstanding(t)
  {
    hide Flat, Waiting, Requests, Execute;
  }

  lemma Replaced<T>(whole: multiset<T>, rest: multiset<T>, x: T, y: T)
    requires whole == multiset{x} + rest
    ensures rest + multiset{y} == whole - multiset{x} + multiset{y}
    ensures rest + multiset{x} == whole
  {
  }

  lemma RunWaiterAccounts(s: Pool)
    requires Wf(s) && s.queue != []
    ensures var t := RunWaiter(s);
      && Held(t) == Held(s) - multiset{s.queue[0].promise} + multiset{|s.promises|}
      && Outstanding(t) == Outstanding(s)
  {
    var popped, waiter := s.(queue := s.queue[1..]), s.queue[0];
    assert Wf(popped);
    hide Held, Outstanding, RunWaiter, Execute, Extends, Wf;
    PopAccounts(s);
    RunWaiterExecutes(s);
    ExecuteAccounts(popped, waiter.request);
    Replaced(Held(s), Held(popped), waiter.promise, |s.promises|);
    Replaced(Outstanding(s), Outstanding(popped), waiter.request, waiter.request);
  }

  lemma {:induction false} SettleKeepsShape(s: Pool, p: PromiseId, state: PromiseState, work: Request -> Response,
                         replying: set<WorkerId>)
    requires Shape(s, work, replying) && p < |s.promises|
    requires state.Chained? ==> p < state.next < |s.promises| && s.promises[state.next].asked == s.promises[p].asked
    requires state.Resolved? ==> state.value == work(s.promises[p].asked)
    ensures Shape(s.(promises := Settle(s.promises, p, state)), work, replying)
  {
    var t := s.(promises := Settle(s.promises, p, state));
    assert forall q :: 0 <= q < |s.promises| ==> t.promises[q].asked == s.promises[q].asked;
    forall w | 0 <= w < |t.once|
      ensures if w in replying then Replying(t, w) else if w in t.workers then Free(t, w) else Busy(t, w)
    {
      assert if w in replying then Replying(s, w) else if w in s.workers then Free(s, w) else Busy(s, w);
    }
  }

  lemma QueueHoldsPending(s: Pool)
    requires Wf(s) && HeldOnce(s) && s.queue != []
    ensures s.promises[s.queue[0].promise].state.Pending?
  {
    QueueShifts(s.queue);
    assert Held(s)[s.queue[0].promise] >= 1;
  }

  lemma {:induction false} RunWaiterKeepsShape(s: Pool, work: Request -> Response, replying: set<WorkerId>)
    requires Shape(s, work, replying)
    ensures Shape(RunWaiter(s), work, replying)
  {
    if s.queue != [] {
      var popped, waiter := s.(queue := s.queue[1..]), s.queue[0];
      var (t, p) := Execute(popped, waiter.request);
      ExecuteKeepsShape(popped, waiter.request, work, replying);
      SettleKeepsShape(t, waiter.promise, Chained(p), work, replying);
    }
  }

  lemma RunWaiterKeepsHeld(s: Pool)
    requires Wf(s) && HeldOnce(s)
    ensures HeldOnce(RunWaiter(s))
  {
    if s.queue != [] {
      var t, waiter := RunWaiter(s), s.queue[0];
      QueueHoldsPending(s);
      RunWaiterAccounts(s);
      var grown := s.promises + [Promise(waiter.request, Pending)];
      assert t.promises == Settle(grown, waiter.promise, Chained(|s.promises|));
      PendingMoves(Held(s), s.promises, waiter.promise, waiter.request, Chained(|s.promises|));
    }
  }

  lemma PendingMoves(held: multiset<PromiseId>, promises: seq<Promise>, p: PromiseId, r: Request, state: PromiseState)
    requires CountsPending(held, promises) && p < |promises| && promises[p].state.Pending? && !state.Pending?
    ensures CountsPending(held - multiset{p} + multiset{|promises|}, Settle(promises + [Promise(r, Pending)], p, state))
  {
  }

  // ----- One message -----

  /** The state between the permanent listener and the once-listener. */
  ghost predicate MidMessage(s: Pool, w: WorkerId, p: PromiseId, work: Request -> Response) {
    && Shape(s, work, {w}) && HeldOnce(s) && (s.queue != [] ==> s.workers == [])
    && w < |s.once| && s.once[w] == [p]
  }

  lemma {:induction false} PermanentListenerKeeps(s: Pool, w: WorkerId, work: Request -> Response)
    requires Inv(s, work) && CanReply(s, w)
    ensures w !in s.workers && |s.once[w]| == 1 && s.promises[s.once[w][0]].asked == s.inbox[w][0]
    ensures MidMessage(RunWaiter(s.(inbox := s.inbox[w := s.inbox[w][1..]])), w, s.once[w][0], work)
  {
    var taken := s.(inbox := s.inbox[w := s.inbox[w][1..]]);
    assert Busy(s, w);
    assert Shape(taken, work, {w}) by {
      forall x | 0 <= x < |s.once| && x != w
        ensures if x in taken.workers then Free(taken, x) else Busy(taken, x)
      {
        assert if x in s.workers then Free(s, x) else Busy(s, x);
      }
    }
    RunWaiterKeepsShape(taken, work, {w});
    assert Held(taken) == Held(s);
    RunWaiterKeepsHeld(taken);
  }

  /** The state right after the once-listener of `w` has delivered and freed its worker. */
  ghost function Freed(s: Pool, w: WorkerId, p: PromiseId, reply: Response): Pool
    requires Wf(s) && w < |s.once| && p < |s.promises|
  {
    s.(once := s.once[w := []], promises := Settle(s.promises, p, Resolved(reply)), workers := s.workers + [w])
  }

  lemma {:induction false} FreedHasShape(s: Pool, w: WorkerId, p: PromiseId, work: Request -> Response)
    requires MidMessage(s, w, p, work) && p < |s.promises|
    ensures Shape(Freed(s, w, p, work(s.promises[p].asked)), work, {})
  {
    var settled := s.(promises := Settle(s.promises, p, Resolved(work(s.promises[p].asked))));
    var freed := settled.(once := s.once[w := []], workers := s.workers + [w]);
    SettleKeepsShape(s, p, Resolved(work(s.promises[p].asked)), work, {w});
    assert Replying(settled, w);
    forall x | 0 <= x < |s.once|
      ensures if x in freed.workers then Free(freed, x) else Busy(freed, x)
    {
      assert x == w || if x in settled.workers then Free(settled, x) else Busy(settled, x);
    }
  }

  lemma FreedIsHeldOnce(s: Pool, w: WorkerId, p: PromiseId, reply: Response)
    requires Wf(s) && HeldOnce(s) && w < |s.once| && s.once[w] == [p] && p < |s.promises|
    ensures HeldOnce(Freed(s, w, p, reply))
  {
    FlatUpdate(s.once, w, []);
    assert p in s.once[w];
    FlatContains(s.once, w, p);
    assert Held(Freed(s, w, p, reply)) == Held(s) - multiset{p};
    assert p in Held(s);
    hide Held, Extends;
    PendingGoes(Held(s), s.promises, p, reply);
  }

  lemma PendingGoes(held: multiset<PromiseId>, promises: seq<Promise>, p: PromiseId, reply: Response)
    requires CountsPending(held, promises) && p < |promises| && p in held
    ensures CountsPending(held - multiset{p}, Settle(promises, p, Resolved(reply)))
  {
  }

  lemma {:induction false} OnceListenerKeeps(s: Pool, w: WorkerId, p: PromiseId, work: Request -> Response)
    requires MidMessage(s, w, p, work)
    ensures p < |s.promises| && Inv(FireOnce(s, w, p, work(s.promises[p].asked)), work)
  {
    assert s.once[w][0] == p;
    var reply := work(s.promises[p].asked);
    var freed := Freed(s, w, p, reply);
    FreedHasShape(s, w, p, work);
    FreedIsHeldOnce(s, w, p, reply);
    assert s.once[w][1..] == [];
    assert FireOnce(s, w, p, reply) == RunWaiter(freed);
    RunWaiterKeepsShape(freed, work, {});
    RunWaiterKeepsHeld(freed);
  }

  lemma {:induction false} MessageKeeps(s: Pool, w: WorkerId, work: Request -> Response)
    requires Inv(s, work) && CanReply(s, w)
    ensures Inv(Message(s, w, work), work)
  {
    hide RunWaiter, HeldOnce, Held;
    PermanentListenerKeeps(s, w, work);
    var mid, p := RunWaiter(s.(inbox := s.inbox[w := s.inbox[w][1..]])), s.once[w][0];
    OnceListenerKeeps(mid, w, p, work);
    assert s.once[w] == [p];
    var reply := work(s.inbox[w][0]);
    assert Message(s, w, work) == FireAll(mid, w, [p], reply) == FireOnce(mid, w, p, reply);
  }

  // ----- Every run -----

  lemma {:induction false} InitialHolds(size: nat, work: Request -> Response)
    ensures Inv(Initial(size), work)
  {
    var s := Initial(size);
    FlatEmpty(s.once);
    assert Held(s) == multiset{};
    forall w | 0 <= w < |s.once| ensures w in s.workers && Free(s, w) {
      assert s.workers[w] == w;
    }
  }

  lemma {:induction false} ExecuteKeeps(s: Pool, r: Request, work: Request -> Response)
    requires Inv(s, work)
    ensures Inv(Execute(s, r).0, work)
  {
    assert Wf(s);
    hide Shape, Held, Extends;
    var t := Execute(s, r).0;
    ExecuteKeepsShape(s, r, work, {});
    ExecuteAccounts(s, r);
    assert t.promises == s.promises + [Promise(r, Pending)];
    PendingAppears(Held(s), s.promises, r);
  }

  lemma PendingAppears(held: multiset<PromiseId>, promises: seq<Promise>, r: Request)
    requires CountsPending(held, promises)
    ensures CountsPending(held + multiset{|promises|}, promises + [Promise(r, Pending)])
  {
  }

  lemma {:induction false} StepKeeps(s: Pool, e: Event, work: Request -> Response)
    requires Inv(s, work)
    ensures Inv(Step(s, e, work), work)
  {
    hide Execute, FireAll, FireOnce, RunWaiter, HeldOnce, Held;
    match e
    case Call(r) => ExecuteKeeps(s, r, work);
    case Reply(w) =>
      if CanReply(s, w) {
        MessageKeeps(s, w, work);
      }
  }

  lemma {:induction false} RunKeeps(s: Pool, events: seq<Event>, work: Request -> Response)
    requires Inv(s, work)
    ensures Inv(Run(s, events, work), work)
    decreases |events|
  {
    if events != [] {
      StepKeeps(s, events[0], work);
      RunKeeps(Step(s, events[0], work), events[1..], work);
    }
  }

  /** In every interleaving of calls and replies the pool is in a good state. */
  lemma {:induction false} EveryRunIsGood(size: nat, events: seq<Event>, work: Request -> Response)
    ensures Inv(Run(Initial(size), events, work), work)
  {
    InitialHolds(size, work);
    RunKeeps(Initial(size), events, work);
  }

  ghost predicate Forward(promises: seq<Promise>) {
    forall p :: 0 <= p < |promises| && promises[p].state.Chained? ==> p < promises[p].state.next < |promises|
  }

  /** The promise at the end of the chain. */
  ghost function Root(promises: seq<Promise>, p: PromiseId): (r: PromiseId)
    requires Forward(promises) && p < |promises|
    ensures r < |promises| && !promises[r].state.Chained?
    decreases |promises| - p
  {
    if promises[p].state.Chained? then Root(promises, promises[p].state.next) else p
  }

  /** What a caller awaiting promise `p` has received. */
  ghost function Outcome(promises: seq<Promise>, p: PromiseId): Option<Response>
    requires Forward(promises) && p < |promises|
  {
    var root := promises[Root(promises, p)].state;
    if root.Resolved? then Some(root.value) else None
  }

  lemma {:induction false} RootAsksTheSame(s: Pool, p: PromiseId, work: Request -> Response)
    requires Chains(s, work) && p < |s.promises|
    ensures Forward(s.promises) && s.promises[Root(s.promises, p)].asked == s.promises[p].asked
    decreases |s.promises| - p
  {
    if s.promises[p].state.Chained? {
      RootAsksTheSame(s, s.promises[p].state.next, work);
    }
  }

  lemma {:induction false} RootOfExtension(before: seq<Promise>, after: seq<Promise>, p: PromiseId)
    requires Forward(before) && Forward(after) && Extends(before, after) && p < |before|
    ensures Root(after, p) == Root(after, Root(before, p))
    decreases |before| - p
  {
    if before[p].state.Chained? {
      RootOfExtension(before, after, before[p].state.next);
    }
  }

  /**
   The promise handed out for a call is, at any later moment of any run, either still open, its chain ending
   in the one place that will settle it, or settled with the reply to that very request.
   */
  lemma {:induction false} CallsGetTheirOwnReply(size: nat, earlier: seq<Event>, r: Request, later: seq<Event>,
                              work: Request -> Response)
    ensures var s := Run(Initial(size), earlier, work);
      var (t, p) := Execute(s, r);
      var u := Run(t, later, work);
      && Forward(u.promises) && p < |u.promises|
      && (Outcome(u.promises, p) == Some(work(r))
          || (Outcome(u.promises, p) == None && Held(u)[Root(u.promises, p)] == 1))
  {
    var s := Run(Initial(size), earlier, work);
    var (t, p) := Execute(s, r);
    var u := Run(t, later, work);
    EveryRunIsGood(size, earlier, work);
    StepKeeps(s, Call(r), work);
    RunKeeps(t, later, work);
    RootAsksTheSame(u, p, work);
    assert t.promises[p].asked == r;
  }

  // ----- Which waiter a reply serves -----

  /** A message is: run a waiter, deliver and free the worker, run a waiter. */
  lemma {:induction false} MessageUnfolds(s: Pool, w: WorkerId, work: Request -> Response)
    requires Inv(s, work) && CanReply(s, w)
    ensures |s.once[w]| == 1 && |s.inbox[w]| == 1 && w !in s.workers
    ensures var taken := s.(inbox := s.inbox[w := []]); Wf(taken) && RunWaiter(taken).once[w] == s.once[w]
    ensures Message(s, w, work)
         == RunWaiter(Freed(RunWaiter(s.(inbox := s.inbox[w := []])), w, s.once[w][0], work(s.inbox[w][0])))
  {
    PermanentListenerKeeps(s, w, work);
    assert Busy(s, w) && s.inbox[w][1..] == [];
    var mid, p, reply := RunWaiter(s.(inbox := s.inbox[w := []])), s.once[w][0], work(s.inbox[w][0]);
    assert s.once[w] == [p] && mid.once[w][1..] == [];
    assert Message(s, w, work) == FireAll(mid, w, [p], reply) == FireOnce(mid, w, p, reply);
  }

  lemma Requeues(s: Pool)
    requires Wf(s) && HeldOnce(s) && s.workers == [] && s.queue != []
    ensures var (t, n) := (RunWaiter(s), |s.promises|);
      && t.workers == [] && t.queue == s.queue[1..] + [Waiter(s.queue[0].request, n)]
      && t.once == s.once && t.inbox == s.inbox && |t.promises| == n + 1
      && t.promises[s.queue[0].promise].state == Chained(n)
  {
    QueueHoldsPending(s);
  }

  lemma Dispatches(s: Pool, w: WorkerId)
    requires Wf(s) && s.workers == [w] && s.queue != []
    ensures var t := RunWaiter(s);
      && t.workers == [] && t.queue == s.queue[1..]
      && t.inbox == s.inbox[w := s.inbox[w] + [s.queue[0].request]]
      && t.once == s.once[w := s.once[w] + [|s.promises|]] && |t.promises| == |s.promises| + 1
      && (s.promises[s.queue[0].promise].state.Pending? ==>
            t.promises[s.queue[0].promise].state == Chained(|s.promises|))
  {
  }

  /** The queue after its first waiter went to the back, with the new promise `n` for it. */
  function Rotated(queue: seq<Waiter>, n: PromiseId): seq<Waiter>
    requires queue != []
  {
    queue[1..] + [Waiter(queue[0].request, n)]
  }

  /**
   The two listeners together serve the second waiter if there is one, not the first: the permanent listener
   moves the first one to the back before the once-listener frees the worker. The queue gets shorter by one.
   */
  lemma {:induction false} ReplyServesRotatedQueue(s: Pool, w: WorkerId, work: Request -> Response)
    requires Inv(s, work) && CanReply(s, w) && s.queue != []
    ensures var (t, rotated) := (Message(s, w, work), Rotated(s.queue, |s.promises|));
      && t.inbox == s.inbox[w := [rotated[0].request]] && t.queue == rotated[1..] && t.workers == []
      && |s.promises| < |t.promises| && t.promises[s.queue[0].promise].state == Chained(|s.promises|)
  {
    hide FireAll, FireOnce, Message, Extends, Flat;
    MessageUnfolds(s, w, work);
    var taken := s.(inbox := s.inbox[w := []]);
    assert Held(taken) == Held(s);
    Requeues(taken);
    Dispatches(Freed(RunWaiter(taken), w, s.once[w][0], work(s.inbox[w][0])), w);
    var r := Rotated(s.queue, |s.promises|)[0].request;
    assert [] + [r] == [r] && s.inbox[w := []][w := [r]] == s.inbox[w := [r]];
  }

  // ----- Who waits how long -----

  /** The call whose promise is `p` waits at place `i` of the queue. */
  ghost predicate Waits(s: Pool, p: PromiseId, i: nat) {
    && Forward(s.promises) && p < |s.promises| && i < |s.queue|
    && Root(s.promises, p) == s.queue[i].promise
  }

  /** The call whose promise is `p` does not wait (any more). */
  ghost predicate Started(s: Pool, p: PromiseId) {
    && Forward(s.promises) && p < |s.promises|
    && Root(s.promises, p) !in Waiting(s.queue)
  }

  lemma {:induction false} BusyWhenWaiting(s: Pool, w: WorkerId, work: Request -> Response)
    requires Inv(s, work) && s.queue != [] && w < |s.once|
    ensures Wf(s) && CanReply(s, w)
  {
    assert w !in s.workers;
  }

  lemma InvIsForward(s: Pool, work: Request -> Response)
    requires Inv(s, work)
    ensures Wf(s) && Forward(s.promises)
  {
  }

  /** What is in the queue is unsettled, in no once-listener, and only once in the queue. */
  lemma {:induction false} QueuedIsPending(s: Pool, i: nat, work: Request -> Response)
    requires Inv(s, work) && i < |s.queue|
    ensures Wf(s) && s.promises[s.queue[i].promise].state.Pending?
  {
    assert Waiting(s.queue)[i] in multiset(Waiting(s.queue));
    assert Held(s)[s.queue[i].promise] >= 1;
  }

  lemma {:induction false} ListenedIsPending(s: Pool, w: WorkerId, p: PromiseId, work: Request -> Response)
    requires Inv(s, work) && w < |s.once| && p in s.once[w]
    ensures p < |s.promises| && s.promises[p].state.Pending? && p !in Waiting(s.queue)
  {
    FlatContains(s.once, w, p);
    assert Held(s)[p] == multiset(Waiting(s.queue))[p] + Flat(s.once)[p];
  }

  lemma PendingRoots(promises: seq<Promise>, p: PromiseId)
    requires Forward(promises) && p < |promises| && !promises[p].state.Chained?
    ensures Root(promises, p) == p
  {
  }

  lemma {:induction false} WaitsIsOpen(s: Pool, p: PromiseId, i: nat, work: Request -> Response)
    requires Inv(s, work) && Waits(s, p, i)
    ensures Outcome(s.promises, p) == None && !Started(s, p)
  {
    QueuedIsPending(s, i, work);
    assert Waiting(s.queue)[i] == s.queue[i].promise;
  }

  /** The place of a call after a later state in which its promise was chained or is still the same. */
  lemma {:induction false} WaitsAfter(s: Pool, t: Pool, p: PromiseId, i: nat, j: nat, work: Request -> Response)
    requires Inv(s, work) && Inv(t, work) && Extends(s.promises, t.promises) && Waits(s, p, i) && j < |t.queue|
    requires var (before, after) := (s.queue[i].promise, t.queue[j].promise);
      Wf(s) && before < |t.promises| && (before == after || t.promises[before].state == Chained(after))
    ensures Waits(t, p, j)
  {
    hide Inv;
    InvIsForward(t, work);
    QueuedIsPending(t, j, work);
    RootOfExtension(s.promises, t.promises, p);
    PendingRoots(t.promises, t.queue[j].promise);
  }

  /** A call that was dispatched to a worker does not wait. */
  lemma {:induction false} StartedAfter(s: Pool, t: Pool, p: PromiseId, i: nat, w: WorkerId, m: PromiseId,
                                        work: Request -> Response)
    requires Inv(s, work) && Inv(t, work) && Extends(s.promises, t.promises) && Waits(s, p, i)
    requires Wf(s) && w < |t.once| && m in t.once[w] && s.queue[i].promise < |t.promises|
    requires Forward(t.promises) && Root(t.promises, s.queue[i].promise) == Root(t.promises, m)
    ensures Started(t, p)
  {
    hide Inv;
    ListenedIsPending(t, w, m, work);
    RootOfExtension(s.promises, t.promises, p);
    PendingRoots(t.promises, m);
  }

  /** The promises of a reply: the oldest waiter's follows a new one, that of the waiter served follows the next. */
  lemma {:induction false} ReplyChains(s: Pool, w: WorkerId, work: Request -> Response)
    requires Inv(s, work) && CanReply(s, w) && s.queue != []
    ensures var (t, n) := (Message(s, w, work), |s.promises|);
      && t.queue == Rotated(s.queue, n)[1..] && |t.promises| == n + 2 && t.once == s.once[w := [n + 1]]
      && t.promises[s.queue[0].promise].state == Chained(n)
      && Rotated(s.queue, n)[0].promise < n + 2
      && t.promises[Rotated(s.queue, n)[0].promise].state == Chained(n + 1)
  {
    hide FireAll, FireOnce, Message, Extends, RunWaiter;
    MessageUnfolds(s, w, work);
    var taken, n := s.(inbox := s.inbox[w := []]), |s.promises|;
    assert Held(taken) == Held(s);
    Requeues(taken);
    var mid := RunWaiter(taken);
    var freed := Freed(mid, w, s.once[w][0], work(s.inbox[w][0]));
    assert freed.queue == Rotated(s.queue, n) && freed.once == s.once[w := []];
    RotatedFrontIsPending(s, w, work);
    Dispatches(freed, w);
    ReplyServesRotatedQueue(s, w, work);
    assert [] + [n + 1] == [n + 1] && s.once[w := []][w := [n + 1]] == s.once[w := [n + 1]];
  }

  /** Delivering the reply leaves the waiter at the front of the rotated queue unsettled. */
  lemma {:induction false} RotatedFrontIsPending(s: Pool, w: WorkerId, work: Request -> Response)
    requires Inv(s, work) && CanReply(s, w) && s.queue != []
    ensures var taken := s.(inbox := s.inbox[w := []]);
      && Wf(taken) && |s.once[w]| == 1 && s.once[w][0] < |RunWaiter(taken).promises|
      && w < |RunWaiter(taken).once|
      && var freed := Freed(RunWaiter(taken), w, s.once[w][0], work(s.inbox[w][0]));
         && freed.queue != [] && freed.queue[0].promise < |freed.promises|
         && freed.promises[freed.queue[0].promise].state.Pending?
  {
    hide Message, FireAll, FireOnce, Flat;
    MessageUnfolds(s, w, work);
    var taken, p := s.(inbox := s.inbox[w := []]), s.once[w][0];
    assert Held(taken) == Held(s);
    Requeues(taken);
    ListenedIsPending(s, w, p, work);
    QueuedIsPending(s, 0, work);
    if |s.queue| > 1 {
      QueuedIsPending(s, 1, work);
      assert Waiting(s.queue)[1] == s.queue[1].promise;
      QueuedOnce(s, work);
    }
    assert Waiting(s.queue)[0] == s.queue[0].promise;
  }

  lemma {:induction false} QueuedOnce(s: Pool, work: Request -> Response)
    requires Inv(s, work) && |s.queue| > 1
    ensures s.queue[0].promise != s.queue[1].promise
  {
    QueueShifts(s.queue);
    QueueShifts(s.queue[1..]);
    assert Held(s)[s.queue[0].promise] <= 1;
  }

  /** What a reply does to a waiting call: two places forward, or served from place one, or from the front to the end. */
  lemma {:induction false} PlaceAfterReply(s: Pool, w: WorkerId, p: PromiseId, i: nat, work: Request -> Response)
    requires Inv(s, work) && CanReply(s, w) && Waits(s, p, i)
    ensures var (t, n) := (Message(s, w, work), |s.queue|);
      if i >= 2 then Waits(t, p, i - 2)
      else if i == 0 && n >= 2 then Waits(t, p, n - 2)
      else Started(t, p)
  {
    hide Inv, Shape, HeldOnce, Held, Extends, Message;
    InvIsForward(s, work);
    var t, n, len := Message(s, w, work), |s.promises|, |s.queue|;
    StepKeeps(s, Reply(w), work);
    InvIsForward(t, work);
    ReplyChains(s, w, work);
    if i >= 2 {
      assert t.queue[i - 2] == s.queue[i];
      WaitsAfter(s, t, p, i, i - 2, work);
    } else if i == 0 && len >= 2 {
      assert t.queue[len - 2].promise == n;
      WaitsAfter(s, t, p, 0, len - 2, work);
    } else {
      assert n + 1 in t.once[w];
      StartedAfter(s, t, p, i, w, n + 1, work);
    }
  }

  /** A new call leaves the places of the waiting calls alone. */
  lemma {:induction false} PlaceAfterCall(s: Pool, r: Request, p: PromiseId, i: nat, work: Request -> Response)
    requires Inv(s, work) && Waits(s, p, i)
    ensures var t := Execute(s, r).0; Waits(t, p, i) && |t.queue| == |s.queue| + 1
  {
    StepKeeps(s, Call(r), work);
    WaitsAfter(s, Execute(s, r).0, p, i, i, work);
  }

  /** A call made while no worker is free waits at the end of the queue. */
  lemma {:induction false} PlaceOfNewCall(s: Pool, r: Request, work: Request -> Response)
    requires Inv(s, work) && s.workers == []
    ensures var (t, p) := Execute(s, r); Waits(t, p, |s.queue|)
  {
    var (t, p) := Execute(s, r);
    StepKeeps(s, Call(r), work);
    InvIsForward(t, work);
    PendingRoots(t.promises, p);
  }

  lemma RunWaiterChains(s: Pool)
    requires Wf(s)
    ensures forall q :: 0 <= q < |s.promises| && (s.queue == [] || q != s.queue[0].promise) ==>
      RunWaiter(s).promises[q] == s.promises[q]
  {
  }

  /** Of the promises that exist, a reply chains at most those of the two oldest waiters. */
  lemma {:induction false} ReplyChainsOnlyWaiters(s: Pool, w: WorkerId, q: PromiseId, work: Request -> Response)
    requires Inv(s, work) && CanReply(s, w) && q < |s.promises| && q !in Waiting(s.queue)
    ensures var t := Message(s, w, work);
      !s.promises[q].state.Chained? ==> !t.promises[q].state.Chained?
  {
    hide FireAll, FireOnce, Message, Extends, RunWaiter;
    MessageUnfolds(s, w, work);
    var taken := s.(inbox := s.inbox[w := []]);
    RunWaiterChains(taken);
    if s.queue == [] {
      assert RunWaiter(taken) == taken by { NothingToRun(taken); }
      RunWaiterChains(Freed(taken, w, s.once[w][0], work(s.inbox[w][0])));
    } else {
      assert Waiting(s.queue)[0] == s.queue[0].promise;
      assert Held(taken) == Held(s);
      Requeues(taken);
      var freed := Freed(RunWaiter(taken), w, s.once[w][0], work(s.inbox[w][0]));
      assert |s.queue| > 1 ==> Waiting(s.queue)[1] == s.queue[1].promise;
      RunWaiterChains(freed);
    }
  }

  lemma NothingToRun(s: Pool)
    requires Wf(s) && s.queue == []
    ensures RunWaiter(s) == s
  {
  }

  /** Waiting promises after a reply waited before, or are new. */
  lemma {:induction false} WaitingAfterReply(s: Pool, w: WorkerId, q: PromiseId, work: Request -> Response)
    requires Inv(s, work) && CanReply(s, w) && q < |s.promises| && q !in Waiting(s.queue)
    ensures q !in Waiting(Message(s, w, work).queue)
  {
    hide Message;
    var t := Message(s, w, work);
    if s.queue == [] {
      MessageUnfolds(s, w, work);
      NothingToRun(s.(inbox := s.inbox[w := []]));
    } else {
      ReplyChains(s, w, work);
      assert forall i :: 0 <= i < |t.queue| - 1 ==> t.queue[i] == s.queue[i + 2];
      assert forall i :: 0 <= i < |s.queue| ==> Waiting(s.queue)[i] == s.queue[i].promise;
    }
  }

  /** Once a call has started it never waits again. */
  lemma {:induction false} StartedStays(s: Pool, e: Event, p: PromiseId, work: Request -> Response)
    requires Inv(s, work) && Started(s, p)
    ensures Wf(s) && Started(Step(s, e, work), p)
  {
    hide Inv, Message, Waiting, Execute;
    InvIsForward(s, work);
    var t, root := Step(s, e, work), Root(s.promises, p);
    StepKeeps(s, e, work);
    InvIsForward(t, work);
    RootOfExtension(s.promises, t.promises, p);
    match e
    case Call(r) => CallStarts(s, r, root);
    case Reply(w) =>
      if CanReply(s, w) {
        ReplyChainsOnlyWaiters(s, w, root, work);
        WaitingAfterReply(s, w, root, work);
        PendingRoots(t.promises, root);
      }
  }

  lemma CallStarts(s: Pool, r: Request, q: PromiseId)
    requires Wf(s) && q < |s.promises| && q !in Waiting(s.queue) && !s.promises[q].state.Chained?
    ensures var t := Execute(s, r).0;
      q !in Waiting(t.queue) && (Forward(t.promises) ==> Root(t.promises, q) == q)
  {
    var t := Execute(s, r).0;
    assert forall i :: 0 <= i < |s.queue| ==> Waiting(s.queue)[i] == s.queue[i].promise;
  }

  /** The replies of a run that come from a worker with something to reply to. */
  ghost function Replies(s: Pool, events: seq<Event>, work: Request -> Response): nat
    requires Wf(s)
    decreases |events|
  {
    if events == [] then 0
    else
      (if events[0].Reply? && CanReply(s, events[0].worker) then 1 else 0) +
      Replies(Step(s, events[0], work), events[1..], work)
  }

  function Calls(events: seq<Event>): nat {
    if events == [] then 0 else (if events[0].Call? then 1 else 0) + Calls(events[1..])
  }

  lemma {:induction false} StartedForGood(s: Pool, events: seq<Event>, p: PromiseId, work: Request -> Response)
    requires Inv(s, work) && Started(s, p)
    ensures Wf(s) && Started(Run(s, events, work), p)
    decreases |events|
  {
    hide Inv, Extends, Started, Step;
    InvIsForward(s, work);
    if events != [] {
      StartedStays(s, events[0], p, work);
      StepKeeps(s, events[0], work);
      StartedForGood(Step(s, events[0], work), events[1..], p, work);
    }
  }

  /** In every run, a call at an odd place moves two places with each reply and is served by number (place + 1) / 2. */
  lemma {:induction false} OddPlaceIsServed(s: Pool, events: seq<Event>, p: PromiseId, i: nat,
                                            work: Request -> Response)
    requires Inv(s, work) && Waits(s, p, i) && i % 2 == 1
    ensures Wf(s)
    ensures var (n, end) := (Replies(s, events, work), Run(s, events, work));
      if 2 * n < i + 1 then Waits(end, p, i - 2 * n) else Started(end, p)
    decreases |events|
  {
    hide Inv, Extends, Started, Waits, Message, Execute;
    InvIsForward(s, work);
    if events != [] {
      var next := Step(s, events[0], work);
      StepKeeps(s, events[0], work);
      match events[0]
      case Call(r) =>
        PlaceAfterCall(s, r, p, i, work);
        OddPlaceIsServed(next, events[1..], p, i, work);
      case Reply(w) =>
        if CanReply(s, w) {
          PlaceAfterReply(s, w, p, i, work);
          if i == 1 {
            StartedForGood(next, events[1..], p, work);
          } else {
            OddPlaceIsServed(next, events[1..], p, i - 2, work);
          }
        } else {
          OddPlaceIsServed(next, events[1..], p, i, work);
        }
    }
  }

  ghost predicate OneRound(s: Pool, events: seq<Event>, p: PromiseId, j: nat, work: Request -> Response)
    requires Wf(s)
  {
    var t := Run(s, events, work);
    && Replies(s, events, work) == 1
    && Inv(t, work) && Waits(t, p, j) && j % 2 == 0 && |t.queue| == |s.queue| + Calls(events) - 1
  }

  lemma {:induction false} ReplyRound(s: Pool, p: PromiseId, i: nat, work: Request -> Response)
    requires Inv(s, work) && Waits(s, p, i) && i % 2 == 0 && |s.once| > 0 && (i == 0 ==> |s.queue| % 2 == 0)
    ensures Wf(s) && OneRound(s, [Reply(0)], p, if i == 0 then |s.queue| - 2 else i - 2, work)
  {
    hide Inv, Extends, Waits, Message;
    InvIsForward(s, work);
    WaitsInQueue(s, p, i);
    BusyWhenWaiting(s, 0, work);
    PlaceAfterReply(s, 0, p, i, work);
    StepKeeps(s, Reply(0), work);
    ReplyChains(s, 0, work);
    assert [Reply(0)][1..] == [];
    assert Run(s, [Reply(0)], work) == Message(s, 0, work);
    assert Replies(Message(s, 0, work), [], work) == 0 && Calls([]) == 0;
  }

  lemma {:induction false} CallFirst(s: Pool, c: Request, rest: seq<Event>, work: Request -> Response)
    requires Wf(s)
    ensures Run(s, [Call(c)] + rest, work) == Run(Execute(s, c).0, rest, work)
    ensures Replies(s, [Call(c)] + rest, work) == Replies(Execute(s, c).0, rest, work)
    ensures Calls([Call(c)] + rest) == 1 + Calls(rest)
  {
    hide Wf, Extends, Execute;
    assert ([Call(c)] + rest)[1..] == rest;
  }

  /** One round for a call at an even place: a reply, after a new call if the reply would serve or misplace it. */
  lemma {:induction false} EvenRound(s: Pool, p: PromiseId, i: nat, c: Request, work: Request -> Response)
    returns (events: seq<Event>, j: nat)
    requires Inv(s, work) && Waits(s, p, i) && i % 2 == 0 && |s.once| > 0
    ensures Wf(s) && OneRound(s, events, p, j, work)
  {
    hide Inv, Extends, Waits, Execute, Run, Replies, Calls;
    InvIsForward(s, work);
    WaitsInQueue(s, p, i);
    if i == 0 && |s.queue| % 2 == 1 {
      var m := Execute(s, c).0;
      StepKeeps(s, Call(c), work);
      PlaceAfterCall(s, c, p, 0, work);
      ReplyRound(m, p, 0, work);
      CallFirst(s, c, [Reply(0)], work);
      events, j := [Call(c)] + [Reply(0)], |m.queue| - 2;
    } else {
      ReplyRound(s, p, i, work);
      events, j := [Reply(0)], if i == 0 then |s.queue| - 2 else i - 2;
    }
  }

  lemma WaitsInQueue(s: Pool, p: PromiseId, i: nat)
    requires Waits(s, p, i)
    ensures i < |s.queue|
  {
  }

  lemma {:induction false} RunAppend(s: Pool, a: seq<Event>, b: seq<Event>, work: Request -> Response)
    requires Wf(s)
    ensures Run(s, a + b, work) == Run(Run(s, a, work), b, work)
    ensures Replies(s, a + b, work) == Replies(s, a, work) + Replies(Run(s, a, work), b, work)
    ensures Calls(a + b) == Calls(a) + Calls(b)
    decreases |a|
  {
    hide Wf, Extends, Step;
    if a == [] {
      assert a + b == b;
    } else {
      assert (a + b)[1..] == a[1..] + b;
      RunAppend(Step(s, a[0], work), a[1..], b, work);
    }
  }

  /** A call at an even place has runs with any number of replies in which it waits while each reply serves another call. */
  lemma {:induction false} EvenPlaceCanStarve(s: Pool, p: PromiseId, i: nat, k: nat, c: Request,
                                              work: Request -> Response)
    returns (events: seq<Event>, j: nat)
    requires Inv(s, work) && Waits(s, p, i) && i % 2 == 0 && |s.once| > 0
    ensures Wf(s) && Replies(s, events, work) == k
    ensures var t := Run(s, events, work);
      Inv(t, work) && Waits(t, p, j) && j % 2 == 0 && |t.queue| == |s.queue| + Calls(events) - k
    decreases k
  {
    hide Inv, Extends, Waits;
    InvIsForward(s, work);
    if k == 0 {
      events, j := [], i;
    } else {
      var first, m := EvenRound(s, p, i, c, work);
      var t := Run(s, first, work);
      var rest;
      rest, j := EvenPlaceCanStarve(t, p, m, k - 1, c, work);
      events := first + rest;
      RunAppend(s, first, rest, work);
    }
  }

  /** There is a run with this many replies in which the call is not served. */
  ghost predicate CanWait(s: Pool, p: PromiseId, k: nat, work: Request -> Response)
    requires Wf(s)
  {
    exists events :: Replies(s, events, work) == k && !Started(Run(s, events, work), p)
  }

  ghost predicate CanStarve(s: Pool, p: PromiseId, work: Request -> Response)
    requires Wf(s)
  {
    forall k: nat :: CanWait(s, p, k, work)
  }

  lemma {:induction false} EvenPlaceCanWait(s: Pool, p: PromiseId, i: nat, k: nat, work: Request -> Response)
    requires Inv(s, work) && Waits(s, p, i) && i % 2 == 0 && |s.once| > 0
    ensures Wf(s) && CanWait(s, p, k, work)
  {
    hide Inv, Started, Waits, Extends, Run, Replies, Outcome;
    InvIsForward(s, work);
    var events, j := EvenPlaceCanStarve(s, p, i, k, BundlrVerifyReceipt(""), work);
    WaitsIsOpen(Run(s, events, work), p, j, work);
  }

  lemma {:induction false} OddPlaceCannotWait(s: Pool, p: PromiseId, i: nat, work: Request -> Response)
    requires Inv(s, work) && Waits(s, p, i) && i % 2 == 1
    ensures Wf(s) && !CanWait(s, p, (i + 1) / 2, work)
  {
    hide Inv, Started, Waits, Extends, Run, Replies;
    InvIsForward(s, work);
    forall events | Replies(s, events, work) == (i + 1) / 2 ensures Started(Run(s, events, work), p) {
      OddPlaceIsServed(s, events, p, i, work);
    }
  }

  lemma {:induction false} PlaceCanStarveIff(s: Pool, p: PromiseId, i: nat, work: Request -> Response)
    requires Inv(s, work) && Waits(s, p, i) && |s.once| > 0
    ensures Wf(s) && (CanStarve(s, p, work) <==> i % 2 == 0)
  {
    hide Inv, Waits, CanWait, Extends;
    InvIsForward(s, work);
    if i % 2 == 0 {
      forall k: nat ensures CanWait(s, p, k, work) {
        EvenPlaceCanWait(s, p, i, k, work);
      }
    } else {
      OddPlaceCannotWait(s, p, i, work);
    }
  }

  /**
   The pool is not fair: a call that has to wait can wait for ever exactly if an even number of calls waits
   before it; otherwise it is served after half as many replies, rounded up.
   */
  lemma {:induction false} CallCanStarveIff(size: nat, earlier: seq<Event>, r: Request, work: Request -> Response)
    requires size > 0 && Run(Initial(size), earlier, work).workers == []
    ensures var s := Run(Initial(size), earlier, work);
      var (t, p) := Execute(s, r);
      CanStarve(t, p, work) <==> |s.queue| % 2 == 0
  {
    hide Inv, Started, Waits, Extends, Execute, CanStarve;
    var s := Run(Initial(size), earlier, work);
    EveryRunIsGood(size, earlier, work);
    var (t, p) := Execute(s, r);
    PlaceOfNewCall(s, r, work);
    StepKeeps(s, Call(r), work);
    PlaceCanStarveIff(t, p, |s.queue|, work);
  }

  /** A reply serves the oldest waiter exactly if nobody else waits. */
  lemma {:induction false} OldestIsServedIff(s: Pool, w: WorkerId, work: Request -> Response)
    requires Inv(s, work) && CanReply(s, w) && s.queue != []
    ensures Wf(s) && (Started(Message(s, w, work), s.queue[0].promise) <==> |s.queue| == 1)
  {
    hide HeldOnce, Held, Message, Extends;
    var p, t := s.queue[0].promise, Message(s, w, work);
    InvIsForward(s, work);
    QueuedIsPending(s, 0, work);
    PendingRoots(s.promises, p);
    PlaceAfterReply(s, w, p, 0, work);
    StepKeeps(s, Reply(w), work);
    if |s.queue| >= 2 {
      WaitsIsOpen(t, p, |s.queue| - 2, work);
    }
  }

  // ----- Draining -----

  /** A run of replies only, each from a worker that has something to reply to. */
  ghost predicate Draining(s: Pool, events: seq<Event>, work: Request -> Response)
    requires Wf(s)
    decreases |events|
  {
    events == [] ||
    (events[0].Reply? && CanReply(s, events[0].worker) && Draining(Step(s, events[0], work), events[1..], work))
  }

  ghost function Served(s: Pool, events: seq<Event>, work: Request -> Response): multiset<Request>
    requires Wf(s) && Draining(s, events, work)
    decreases |events|
  {
    if events == [] then multiset{}
    else multiset{s.inbox[events[0].worker][0]} + Served(Step(s, events[0], work), events[1..], work)
  }

  lemma RunWaiterKeepsOutstanding(s: Pool)
    requires Wf(s)
    ensures Outstanding(RunWaiter(s)) == Outstanding(s)
  {
    if s.queue != [] {
      RunWaiterAccounts(s);
    }
  }

  lemma TakenAccounts(s: Pool, w: WorkerId)
    requires w < |s.inbox| && |s.inbox[w]| == 1
    ensures s.inbox[w][0] in Outstanding(s)
    ensures Outstanding(s.(inbox := s.inbox[w := []])) == Outstanding(s) - multiset{s.inbox[w][0]}
  {
    assert s.inbox[w] == [s.inbox[w][0]];
    FlatContains(s.inbox, w, s.inbox[w][0]);
    FlatUpdate(s.inbox, w, []);
  }

  lemma {:induction false} ReplyAccounts(s: Pool, w: WorkerId, work: Request -> Response)
    requires Inv(s, work) && CanReply(s, w)
    ensures s.inbox[w][0] in Outstanding(s)
    ensures Outstanding(Message(s, w, work)) == Outstanding(s) - multiset{s.inbox[w][0]}
  {
    hide Inv, HeldOnce, Held, Shape, Extends;
    MessageUnfolds(s, w, work);
    TakenAccounts(s, w);
    var taken := s.(inbox := s.inbox[w := []]);
    RunWaiterKeepsOutstanding(taken);
    var freed := Freed(RunWaiter(taken), w, s.once[w][0], work(s.inbox[w][0]));
    RunWaiterKeepsOutstanding(freed);
  }

  /** Without new calls every reply serves exactly one outstanding request, and each is served once. */
  lemma {:induction false} DrainServesEachOnce(s: Pool, events: seq<Event>, work: Request -> Response)
    requires Inv(s, work) && Draining(s, events, work)
    ensures Served(s, events, work) + Outstanding(Run(s, events, work)) == Outstanding(s)
    ensures |events| + |Outstanding(Run(s, events, work))| == |Outstanding(s)|
    decreases |events|
  {
    hide Inv, HeldOnce, Held, Shape, Extends, Outstanding, Message, RunWaiter, Execute, Forward;
    InvIsForward(s, work);
    if events != [] {
      ReplyAccounts(s, events[0].worker, work);
      StepKeeps(s, events[0], work);
      var next, end := Step(s, events[0], work), Run(s, events, work);
      DrainServesEachOnce(next, events[1..], work);
      PutBack(Served(next, events[1..], work), Outstanding(end), Outstanding(s), s.inbox[events[0].worker][0]);
    }
  }

  lemma PutBack<T>(served: multiset<T>, left: multiset<T>, all: multiset<T>, x: T)
    requires x in all && served + left == all - multiset{x}
    ensures multiset{x} + served + left == all
    ensures |all - multiset{x}| == |all| - 1
  {
    assert multiset{x} + (all - multiset{x}) == all;
    assert multiset{x} + served + left == multiset{x} + (served + left);
  }

  lemma {:induction false} FlatNonEmpty<T>(xss: seq<seq<T>>) returns (i: nat)
    requires Flat(xss) != multiset{}
    ensures i < |xss| && xss[i] != []
  {
    if xss[0] != [] {
      i := 0;
    } else {
      var j := FlatNonEmpty(xss[1..]);
      i := j + 1;
    }
  }

  /** As long as something is outstanding some worker still has to reply. */
  lemma {:induction false} DrainingGoesOn(s: Pool, work: Request -> Response) returns (w: WorkerId)
    requires Inv(s, work) && |s.once| > 0 && Outstanding(s) != multiset{}
    ensures CanReply(s, w)
  {
    if s.queue != [] {
      w := 0;
      BusyWhenWaiting(s, w, work);
    } else {
      w := FlatNonEmpty(s.inbox);
    }
  }

  lemma WaiterIsOutstanding(s: Pool)
    requires s.queue != []
    ensures s.queue[0].request in Outstanding(s)
  {
    QueueShifts(s.queue);
  }

  lemma {:induction false} NothingOutstanding(s: Pool, work: Request -> Response)
    requires Inv(s, work) && Outstanding(s) == multiset{}
    ensures s.queue == [] && Held(s) == multiset{}
    ensures forall w :: 0 <= w < |s.once| ==> w in s.workers
  {
    if s.queue != [] {
      WaiterIsOutstanding(s);
    }
    forall w | 0 <= w < |s.once| ensures w in s.workers && s.once[w] == [] {
      if w !in s.workers {
        FlatContains(s.inbox, w, s.inbox[w][0]);
      }
    }
    FlatEmpty(s.once);
  }

  lemma {:induction false} NothingHeld(s: Pool, p: PromiseId, work: Request -> Response)
    requires Inv(s, work) && Held(s) == multiset{} && p < |s.promises|
    ensures Forward(s.promises) && Outcome(s.promises, p) == Some(work(s.promises[p].asked))
  {
    RootAsksTheSame(s, p, work);
    assert Held(s)[Root(s.promises, p)] == 0;
  }

  /**
   Once no new calls arrive, a pool with at least one worker answers everything after exactly as many replies
   as requests were outstanding, and then all workers are free.
   */
  lemma {:induction false} DrainedPoolIsIdle(s: Pool, events: seq<Event>, work: Request -> Response)
    requires Inv(s, work) && Draining(s, events, work) && |s.once| > 0
    requires forall w :: !CanReply(Run(s, events, work), w)
    ensures var t := Run(s, events, work);
      && |events| == |Outstanding(s)| && Served(s, events, work) == Outstanding(s)
      && t.queue == [] && (forall w :: 0 <= w < |t.once| ==> w in t.workers)
      && Forward(t.promises)
      && forall p :: 0 <= p < |t.promises| ==> Outcome(t.promises, p) == Some(work(t.promises[p].asked))
  {
    hide Inv, HeldOnce, Held, Shape, Extends, Outstanding, Outcome, Root;
    InvIsForward(s, work);
    var t := Run(s, events, work);
    RunKeeps(s, events, work);
    DrainServesEachOnce(s, events, work);
    if Outstanding(t) != multiset{} {
      var w := DrainingGoesOn(t, work);
    }
    NothingOutstanding(t, work);
    InvIsForward(t, work);
    forall p | 0 <= p < |t.promises|
      ensures Outcome(t.promises, p) == Some(work(t.promises[p].asked))
    {
      NothingHeld(t, p, work);
    }
  }

  // ----- The pool itself -----

  class WorkerPool {
    var workers: seq<WorkerId>
    var queue: seq<Waiter>
    var once: seq<seq<PromiseId>>
    var inbox: seq<seq<Request>>
    var promises: seq<Promise>

    ghost function State(): Pool
      reads this
    {
      Pool(workers, queue, once, inbox, promises)
    }

    constructor (size: nat)
      ensures State() == Initial(size)
    {
      workers, queue, promises := seq(size, i => i), [], [];
      once, inbox := seq(size, _ => []), seq(size, _ => []);
    }

    method Call(request: Request) returns (p: PromiseId)
      requires Wf(State())
      modifies this
      ensures (State(), p) == Execute(old(State()), request)
    {
      p := |promises|;
      promises := promises + [Promise(request, Pending)];
      if workers == [] {
        queue := queue + [Waiter(request, p)];
      } else {
        var w := workers[0];
        workers := workers[1..];
        once := once[w := once[w] + [p]];
        inbox := inbox[w := inbox[w] + [request]];
      }
    }

    method Shift()
      requires Wf(State())
      modifies this
      ensures State() == RunWaiter(old(State()))
    {
      if queue != [] {
        var waiter := queue[0];
        queue := queue[1..];
        var p := Call(waiter.request);
        if promises[waiter.promise].state.Pending? {
          promises := promises[waiter.promise := promises[waiter.promise].(state := Chained(p))];
        }
      }
    }

    /** Worker `w` replies to the first request in its inbox; all listeners registered at that moment run. */
    method OnMessage(w: WorkerId, work: Request -> Response)
      requires Wf(State()) && CanReply(State(), w)
      modifies this
      ensures State() == Message(old(State()), w, work)
    {
      hide RunWaiter, FireOnce;
      var reply, fired := work(inbox[w][0]), once[w];
      inbox := inbox[w := inbox[w][1..]];
      Shift();
      ghost var mid := State();
      var i := 0;
      while i < |fired|
        invariant 0 <= i <= |fired| && Wf(State()) && w < |once|
        invariant forall j :: 0 <= j < |fired| ==> fired[j] < |promises|
        invariant FireAll(mid, w, fired, reply) == FireAll(State(), w, fired[i..], reply)
      {
        assert fired[i..][1..] == fired[i + 1..];
        Deliver(w, fired[i], reply);
        i := i + 1;
      }
    }

    /** One once-listener. */
    method Deliver(w: WorkerId, p: PromiseId, reply: Response)
      requires Wf(State()) && w < |once| && p < |promises|
      modifies this
      ensures State() == FireOnce(old(State()), w, p, reply)
    {
      once := once[w := if once[w] == [] then [] else once[w][1..]];
      if promises[p].state.Pending? {
        promises := promises[p := promises[p].(state := Resolved(reply))];
      }
      workers := workers + [w];
      Shift();
    }
  }
}
