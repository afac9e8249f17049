/**
 The Rust verifier's treatment of a list of transactions: bulk prefetch of pointers, verdict and signature caches.

 `join_all` polls one future per transaction. A future runs from one await to the next without interruption, so
 a run is a schedule: the list of the futures that take their next step.
 */
module RustVerifier {
  import opened Prelude
  import opened RustBundlr
  import opened Text

  type Verdict = Result<(), VerifierError>

  /** Bundlr and `process_proof`. */
  datatype Oracle = Oracle(bundlr: Bundlr, proof: Transaction -> Verdict)

  datatype Caches = Caches(verdicts: map<string, Verdict>, signatures: set<string>)

  const ARWEAVE := "ar://"
  const BULK_THRESHOLD := 10

  function PointerId(t: Transaction): string
    requires t.pointer.Some?
  {
    RemoveAll(t.pointer.value, ARWEAVE)
  }

  /** The id of a pointer is what remains without any `ar://`. */
  lemma {:induction false} PointerIdIs(t: Transaction, id: string)
    requires t.pointer in {Some(id), Some(ARWEAVE + id), Some(ARWEAVE + (ARWEAVE + id))}
    requires forall k: nat :: !OccursAt(id, ARWEAVE, k)
    ensures PointerId(t) == id
  {
    hide RemoveAll;
    NothingToRemove(id, ARWEAVE);
    PrefixGoes(ARWEAVE, id);
    PrefixGoes(ARWEAVE, ARWEAVE + id);
  }

  // ----- Prefetch -----

  /** The pointer id per transaction id; of transactions with the same id the last one with a pointer counts. */
  function PointerIds(ts: seq<Transaction>): map<string, string> {
    if ts == [] then map[]
    else
      var rest, t := PointerIds(ts[..|ts| - 1]), ts[|ts| - 1];
      if t.pointer.Some? then rest[t.id := PointerId(t)] else rest
  }

  /** What the bulk request found for the pointer of a transaction, with its own timestamp proofs. */
  function Prefetched(o: Oracle, pointerIds: map<string, string>, t: Transaction): Option<Transaction> {
    if t.id in pointerIds && Summary(o.bundlr, pointerIds[t.id]).Ok? then Summary(o.bundlr, pointerIds[t.id]).value
    else None
  }

  /** The transaction a pointer is resolved to; a single request has nothing to pair wrongly. */
  function Pointed(o: Oracle, t: Transaction, prefetched: Option<Transaction>): Result<Transaction, VerifierError>
    requires t.pointer.Some?
  {
    if prefetched.Some? then Ok(prefetched.value) else FetchOne(o.bundlr, PointerId(t))
  }

  /** A pointer that cannot be fetched reports that error, one that fails its check a fixed error. */
  function PointerVerdict(o: Oracle, t: Transaction, prefetched: Option<Transaction>): Verdict
    requires t.pointer.Some?
  {
    match Pointed(o, t, prefetched)
    case Err(e) => Err(e)
    case Ok(p) => if o.proof(p).Ok? then Ok(()) else Err(PointerFailedVerification)
  }

  /** The transaction prefetched for the pointer, or the one Bundlr has under the pointer's id, with its own proofs. */
  ghost predicate ResolvesTo(o: Oracle, t: Transaction, prefetched: Option<Transaction>, p: Transaction)
    requires t.pointer.Some?
  {
    if prefetched.Some? then p == prefetched.value else Summary(o.bundlr, PointerId(t)) == Ok(Some(p))
  }

  /** The pointer, if any, resolves to a transaction with a valid proof. */
  ghost predicate GetsToItself(o: Oracle, t: Transaction, prefetched: Option<Transaction>) {
    t.pointer.None? || exists p :: ResolvesTo(o, t, prefetched, p) && o.proof(p).Ok?
  }

  /** Each way the check of a pointer can end. */
  lemma {:induction false} PointerVerdictIff(o: Oracle, t: Transaction, prefetched: Option<Transaction>)
    requires t.pointer.Some?
    ensures var verdict, found := PointerVerdict(o, t, prefetched), Summary(o.bundlr, PointerId(t));
      && (verdict.Ok? <==> GetsToItself(o, t, prefetched))
      && (forall p :: ResolvesTo(o, t, prefetched, p) && o.proof(p).Err? ==> verdict == Err(PointerFailedVerification))
      && (prefetched.None? && found.Err? ==> verdict == Err(found.error))
      && (prefetched.None? && found == Ok(None) ==> verdict == Err(CannotConnectToBundlr))
  {
    hide FetchOne, Summary, PointerId;
    FetchOneIsSummary(o.bundlr, PointerId(t));
    if prefetched.Some? {
      assert ResolvesTo(o, t, prefetched, prefetched.value);
    }
  }

  // ----- The futures -----

  datatype Phase = Fresh | PointerPending | ProofPending | Done(verdict: Verdict)

  datatype State = State(caches: Caches, phases: seq<Phase>, panicked: bool)

  predicate CachedFailure(c: Caches, id: string) {
    id in c.verdicts && c.verdicts[id].Err?
  }

  function OwnChecks(s: State, t: Transaction, i: nat): State
    requires i < |s.phases|
  {
    if CachedFailure(s.caches, t.id) then s.(panicked := true)
    else if t.signature in s.caches.signatures then s.(phases := s.phases[i := Done(Err(ChainSignatureAlreadyUsed))])
    else s.(phases := s.phases[i := ProofPending])
  }

  /** Unwrapping a cached failure panics; a cached success changes nothing. */
  function Step(o: Oracle, ts: seq<Transaction>, prefetched: seq<Option<Transaction>>, s: State, i: nat): (r: State)
    requires |prefetched| == |ts| == |s.phases|
    ensures |r.phases| == |ts|
  {
    if s.panicked || i >= |ts| then s
    else
      match s.phases[i]
      case Fresh =>
        if ts[i].pointer.None? then OwnChecks(s, ts[i], i)
        else if CachedFailure(s.caches, PointerId(ts[i])) then s.(panicked := true)
        else s.(phases := s.phases[i := PointerPending])
      case PointerPending =>
        if ts[i].pointer.None? then s
        else
          var verdict := PointerVerdict(o, ts[i], prefetched[i]);
          if verdict.Err? then s.(phases := s.phases[i := Done(verdict)]) else OwnChecks(s, ts[i], i)
      case ProofPending =>
        State(Record(s.caches, ts[i], o.proof(ts[i])), s.phases[i := Done(o.proof(ts[i]))], false)
      case Done(_) => s
  }

  function Record(c: Caches, t: Transaction, verdict: Verdict): Caches {
    Caches(c.verdicts[t.id := verdict], c.signatures + {t.signature})
  }

  function Run(o: Oracle, ts: seq<Transaction>, prefetched: seq<Option<Transaction>>, s: State, schedule: seq<nat>)
    : (r: State)
    requires |prefetched| == |ts| == |s.phases|
    ensures |r.phases| == |ts|
    decreases |schedule|
  {
    if schedule == [] then s else Run(o, ts, prefetched, Step(o, ts, prefetched, s, schedule[0]), schedule[1..])
  }

  function Start(c: Caches, n: nat): State {
    State(c, seq(n, _ => Fresh), false)
  }

  function AllPrefetched(o: Oracle, ts: seq<Transaction>): seq<Option<Transaction>> {
    seq(|ts|, i requires 0 <= i < |ts| => Prefetched(o, PointerIds(ts), ts[i]))
  }

  function NonePrefetched(ts: seq<Transaction>): seq<Option<Transaction>> {
    seq(|ts|, _ => None)
  }

  // ----- Prefetching changes nothing, exactly if equal ids mean equal pointers -----

  ghost predicate PointersAgree(ts: seq<Transaction>) {
    forall t, u :: t in ts && u in ts && t.id == u.id && t.pointer.Some? && u.pointer.Some? ==>
      PointerId(t) == PointerId(u)
  }

  lemma {:induction false} PointerIdsOf(ts: seq<Transaction>)
    ensures forall id :: id in PointerIds(ts) ==>
      exists t :: t in ts && t.id == id && t.pointer.Some? && PointerId(t) == PointerIds(ts)[id]
    ensures forall t :: t in ts && t.pointer.Some? ==> t.id in PointerIds(ts)
  {
    if ts != [] {
      PointerIdsOf(ts[..|ts| - 1]);
      assert ts == ts[..|ts| - 1] + [ts[|ts| - 1]];
    }
  }

  ghost predicate LastPointerOf(ts: seq<Transaction>, id: string, k: nat) {
    && k < |ts| && ts[k].id == id && ts[k].pointer.Some?
    && forall j :: k < j < |ts| && ts[j].id == id ==> ts[j].pointer.None?
  }

  lemma {:induction false} LastPointerCounts(ts: seq<Transaction>, id: string, k: nat)
    requires LastPointerOf(ts, id, k)
    ensures id in PointerIds(ts) && PointerIds(ts)[id] == PointerId(ts[k])
  {
    if k < |ts| - 1 {
      LastPointerCounts(ts[..|ts| - 1], id, k);
    }
  }

  /**
   What a future works with: in a list of more than ten, what Bundlr has for the last pointer under the id of its
   transaction; nothing in a shorter list, or if no transaction with that id has a pointer.
   */
  lemma {:induction false} PointersAre(o: Oracle, ts: seq<Transaction>, i: nat)
    requires i < |ts|
    ensures |Pointers(o, ts)| == |ts|
    ensures |ts| <= 10 ==> Pointers(o, ts)[i] == None
    ensures forall k: nat :: |ts| > 10 && LastPointerOf(ts, ts[i].id, k) ==>
      Pointers(o, ts)[i] == match Summary(o.bundlr, PointerId(ts[k])) case Ok(found) => found case Err(_) => None
    ensures (forall t :: t in ts && t.id == ts[i].id ==> t.pointer.None?) ==> Pointers(o, ts)[i] == None
  {
    hide Summary, PointerId;
    PointerIdsOf(ts);
    forall k: nat | LastPointerOf(ts, ts[i].id, k)
      ensures ts[i].id in PointerIds(ts) && PointerIds(ts)[ts[i].id] == PointerId(ts[k])
    {
      LastPointerCounts(ts, ts[i].id, k);
    }
  }

  ghost predicate SamePointers(o: Oracle, ts: seq<Transaction>) {
    forall t :: t in ts && t.pointer.Some? ==>
      Pointed(o, t, Prefetched(o, PointerIds(ts), t)) == Pointed(o, t, None)
  }

  lemma {:induction false} PrefetchHarmlessIff(ts: seq<Transaction>)
    ensures PointersAgree(ts) <==> forall o: Oracle :: AnswersById(o.bundlr) ==> SamePointers(o, ts)
  {
    hide FetchOne;
    PointerIdsOf(ts);
    forall o: Oracle, id {
      FetchOneIsSummary(o.bundlr, id);
    }
    if forall o: Oracle :: AnswersById(o.bundlr) ==> SamePointers(o, ts) {
      var bundlr := Bundlr(id => Ok(Some(Transaction(id, None, "", "", None, ""))), _ => Ok(NoStamp));
      var echo := Oracle(bundlr, _ => Ok(()));
      assert AnswersById(echo.bundlr) && SamePointers(echo, ts);
      forall t | t in ts && t.pointer.Some? ensures PointerId(t) == PointerIds(ts)[t.id] {
        assert Pointed(echo, t, Prefetched(echo, PointerIds(ts), t)).value.id == PointerIds(ts)[t.id];
      }
    }
  }

  lemma {:induction false} RunCongruent(o: Oracle, ts: seq<Transaction>, ps: seq<Option<Transaction>>,
                                        qs: seq<Option<Transaction>>, s: State, schedule: seq<nat>)
    requires |ps| == |qs| == |ts| == |s.phases|
    requires forall i :: 0 <= i < |ts| && ts[i].pointer.Some? ==> Pointed(o, ts[i], ps[i]) == Pointed(o, ts[i], qs[i])
    ensures Run(o, ts, ps, s, schedule) == Run(o, ts, qs, s, schedule)
    decreases |schedule|
  {
    if schedule != [] {
      assert Step(o, ts, ps, s, schedule[0]) == Step(o, ts, qs, s, schedule[0]);
      RunCongruent(o, ts, ps, qs, Step(o, ts, ps, s, schedule[0]), schedule[1..]);
    }
  }

  /** The pointers a run works with. */
  function Pointers(o: Oracle, ts: seq<Transaction>): seq<Option<Transaction>> {
    if |ts| > BULK_THRESHOLD then AllPrefetched(o, ts) else NonePrefetched(ts)
  }

  lemma {:induction false} SamePointersRun(o: Oracle, ts: seq<Transaction>, s: State, schedule: seq<nat>)
    requires AnswersById(o.bundlr) && PointersAgree(ts) && |s.phases| == |ts|
    ensures Run(o, ts, Pointers(o, ts), s, schedule) == Run(o, ts, NonePrefetched(ts), s, schedule)
  {
    hide Run, FetchOne;
    PrefetchHarmlessIff(ts);
    assert SamePointers(o, ts);
    RunCongruent(o, ts, AllPrefetched(o, ts), NonePrefetched(ts), s, schedule);
  }

  // ----- The whole call -----

  datatype Outcome = Finished(verdicts: seq<Verdict>) | Panicked | BulkFailed(error: VerifierError)

  /** The call returns when all futures are done, or one of them panics. */
  ghost predicate Completes(s: State) {
    s.panicked || forall i :: 0 <= i < |s.phases| ==> s.phases[i].Done?
  }

  function Verdicts(phases: seq<Phase>): seq<Verdict>
    requires forall i :: 0 <= i < |phases| ==> phases[i].Done?
  {
    seq(|phases|, i requires 0 <= i < |phases| => phases[i].verdict)
  }

  function EndOf(s: State): (Caches, Outcome)
    requires Completes(s)
  {
    (s.caches, if s.panicked then Panicked else Finished(Verdicts(s.phases)))
  }

  /** `order` is the order in which the distinct pointer ids come out of a hash set. */
  function Processed(o: Oracle, c: Caches, ts: seq<Transaction>, order: seq<string>, schedule: seq<nat>)
    : (Caches, Outcome)
    requires Completes(Run(o, ts, Pointers(o, ts), Start(c, |ts|), schedule))
  {
    var bulk := if |ts| > BULK_THRESHOLD then FetchBulk(o.bundlr, order) else Fetched([]);
    match bulk
    case Failed(e) => (c, BulkFailed(e))
    case AssertionFails => (c, Panicked)
    case Fetched(_) => EndOf(Run(o, ts, Pointers(o, ts), Start(c, |ts|), schedule))
  }

  /**
   However the futures interleave, the prefetch gives the verdicts, panics and caches of fetching each pointer by
   itself, provided no answer is an error and in no chunk known timestamp proofs follow missing ones. In the other
   cases the call ends at once: with an error, or with a panic.
   */
  lemma {:induction false} PrefetchRefinesFetch(o: Oracle, c: Caches, ts: seq<Transaction>, order: seq<string>,
                                                schedule: seq<nat>)
    requires AnswersById(o.bundlr) && PointersAgree(ts) && |ts| > BULK_THRESHOLD
    requires Completes(Run(o, ts, Pointers(o, ts), Start(c, |ts|), schedule))
    ensures var direct := Run(o, ts, NonePrefetched(ts), Start(c, |ts|), schedule);
      var r := Processed(o, c, ts, order, schedule);
      && Completes(direct)
      && (!SomeFails(o.bundlr, order) && !GapInChunk(o.bundlr, order) ==> r == EndOf(direct))
      && (!SomeFails(o.bundlr, order) && GapInChunk(o.bundlr, order) ==> r == (c, Panicked))
      && (SomeFails(o.bundlr, order) && !GapInChunk(o.bundlr, order) ==> r.0 == c && r.1.BulkFailed?)
      && (SomeFails(o.bundlr, order) && GapInChunk(o.bundlr, order) ==> r.0 == c && !r.1.Finished?)
      && (r.1.BulkFailed? ==> exists id :: id in order && Summary(o.bundlr, id) == Err(r.1.error))
  {
    hide Run, FetchBulk, SomeFails, GapInChunk;
    SamePointersRun(o, ts, Start(c, |ts|), schedule);
    BulkEndsIff(o.bundlr, order);
    BulkNeedsFailure(o.bundlr, order);
  }

  lemma {:induction false} BulkNeedsFailure(b: Bundlr, order: seq<string>)
    ensures FetchBulk(b, order).Failed? ==> SomeFails(b, order)
    ensures FetchBulk(b, order).AssertionFails? ==> GapInChunk(b, order)
  {
    hide FetchBulk, GapInChunk;
    BulkEndsIff(b, order);
  }

  // ----- When a call panics -----

  /** Distinct transactions none of which is the pointer of another one. */
  ghost predicate Separate(ts: seq<Transaction>) {
    && (forall i, j :: 0 <= i < j < |ts| ==> ts[i].id != ts[j].id)
    && (forall t, u :: t in ts && u in ts && u.pointer.Some? ==> t.id != PointerId(u))
  }

  /** The cache has a failure under this id; a success there changes nothing. */
  ghost predicate FailedBefore(c: Caches, id: string) {
    id in c.verdicts && c.verdicts[id].Err?
  }

  /** The future of this transaction unwraps a cached failure: of its pointer, or its own, if it gets that far. */
  ghost predicate Poisoned(o: Oracle, c: Caches, t: Transaction, prefetched: Option<Transaction>) {
    || (t.pointer.Some? && FailedBefore(c, PointerId(t)))
    || (FailedBefore(c, t.id) && GetsToItself(o, t, prefetched))
  }

  ghost predicate SomePoisoned(o: Oracle, c: Caches, ts: seq<Transaction>, ps: seq<Option<Transaction>>)
    requires |ps| == |ts|
  {
    exists i :: 0 <= i < |ts| && Poisoned(o, c, ts[i], ps[i])
  }

  /** How far one future got, if it met no cached failure. */
  ghost predicate Unharmed(o: Oracle, c: Caches, t: Transaction, prefetched: Option<Transaction>, phase: Phase) {
    && (phase.PointerPending? ==> t.pointer.Some?)
    && (!phase.Fresh? && t.pointer.Some? ==> !CachedFailure(c, PointerId(t)))
    && (phase.ProofPending? || phase.Done? ==> !Poisoned(o, c, t, prefetched))
  }

  /** Failures under other ids, and those of futures that are not done, are as they were at the start. */
  ghost predicate OldFailures(c: Caches, ts: seq<Transaction>, s: State)
    requires |s.phases| == |ts|
  {
    && (forall id :: (forall t :: t in ts ==> t.id != id) ==> CachedFailure(s.caches, id) == CachedFailure(c, id))
    && (forall k :: 0 <= k < |ts| && !s.phases[k].Done? ==> CachedFailure(s.caches, ts[k].id) == CachedFailure(c, ts[k].id))
  }

  ghost predicate AllUnharmed(o: Oracle, c: Caches, ts: seq<Transaction>, ps: seq<Option<Transaction>>, s: State)
    requires |ps| == |ts| == |s.phases|
  {
    && !s.panicked && OldFailures(c, ts, s)
    && forall k :: 0 <= k < |ts| ==> Unharmed(o, c, ts[k], ps[k], s.phases[k])
  }

  lemma {:induction false} StepKeepsOldFailures(o: Oracle, c: Caches, ts: seq<Transaction>,
                                                ps: seq<Option<Transaction>>, s: State, i: nat)
    requires |ps| == |ts| == |s.phases| && i < |ts| && Separate(ts) && OldFailures(c, ts, s)
    ensures OldFailures(c, ts, Step(o, ts, ps, s, i))
  {
    hide PointerVerdict;
    var next := Step(o, ts, ps, s, i);
    assert ts[i] in ts;
    forall k | 0 <= k < |ts| && !next.phases[k].Done?
      ensures CachedFailure(next.caches, ts[k].id) == CachedFailure(c, ts[k].id)
    {
      assert k != i ==> ts[k].id != ts[i].id;
    }
  }

  /** One step of one future: it stays unharmed, or panics because it is poisoned. */
  lemma {:induction false} StepHarms(o: Oracle, c: Caches, ts: seq<Transaction>, ps: seq<Option<Transaction>>,
                                     s: State, i: nat)
    requires |ps| == |ts| == |s.phases| && i < |ts| && Separate(ts) && AllUnharmed(o, c, ts, ps, s)
    ensures var next := Step(o, ts, ps, s, i);
      if next.panicked then Poisoned(o, c, ts[i], ps[i]) else Unharmed(o, c, ts[i], ps[i], next.phases[i])
  {
    hide PointerVerdict, ResolvesTo, PointerId;
    var t := ts[i];
    assert t in ts;
    assert Unharmed(o, c, t, ps[i], s.phases[i]);
    if t.pointer.Some? {
      PointerVerdictIff(o, t, ps[i]);
      assert forall u :: u in ts ==> u.id != PointerId(t);
      assert CachedFailure(s.caches, PointerId(t)) == CachedFailure(c, PointerId(t));
    }
  }

  lemma {:induction false} StepKeepsUnharmed(o: Oracle, c: Caches, ts: seq<Transaction>, ps: seq<Option<Transaction>>,
                                             s: State, i: nat)
    requires |ps| == |ts| == |s.phases| && Separate(ts) && AllUnharmed(o, c, ts, ps, s)
    ensures var next := Step(o, ts, ps, s, i);
      if next.panicked then SomePoisoned(o, c, ts, ps) else AllUnharmed(o, c, ts, ps, next)
  {
    hide PointerVerdict, Poisoned, Unharmed, OldFailures, Separate;
    if i < |ts| {
      StepKeepsOldFailures(o, c, ts, ps, s, i);
      StepHarms(o, c, ts, ps, s, i);
    }
  }

  lemma {:induction false} RunHarmsOrNot(o: Oracle, c: Caches, ts: seq<Transaction>, ps: seq<Option<Transaction>>,
                                         s: State, schedule: seq<nat>)
    requires |ps| == |ts| == |s.phases| && Separate(ts) && AllUnharmed(o, c, ts, ps, s)
    ensures var end := Run(o, ts, ps, s, schedule);
      if end.panicked then SomePoisoned(o, c, ts, ps) else AllUnharmed(o, c, ts, ps, end)
    decreases |schedule|
  {
    hide Separate, AllUnharmed, SomePoisoned, Step;
    if schedule != [] {
      var next := Step(o, ts, ps, s, schedule[0]);
      StepKeepsUnharmed(o, c, ts, ps, s, schedule[0]);
      if next.panicked {
        PanicStays(o, ts, ps, next, schedule[1..]);
      } else {
        RunHarmsOrNot(o, c, ts, ps, next, schedule[1..]);
      }
    } else {
      assert !s.panicked by { UnharmedRuns(o, c, ts, ps, s); }
    }
  }

  lemma {:induction false} UnharmedRuns(o: Oracle, c: Caches, ts: seq<Transaction>, ps: seq<Option<Transaction>>,
                                        s: State)
    requires |ps| == |ts| == |s.phases| && AllUnharmed(o, c, ts, ps, s)
    ensures !s.panicked
  {
  }

  lemma {:induction false} StartIsUnharmed(o: Oracle, c: Caches, ts: seq<Transaction>, ps: seq<Option<Transaction>>)
    requires |ps| == |ts|
    ensures AllUnharmed(o, c, ts, ps, Start(c, |ts|))
  {
  }

  /**
   Under every schedule that ends, the futures panic exactly if one of the transactions is poisoned: a condition on
   the caches before the call and the pointers, whatever the order of the steps.
   */
  lemma {:induction false} RunPanicsIff(o: Oracle, c: Caches, ts: seq<Transaction>, ps: seq<Option<Transaction>>,
                                        schedule: seq<nat>)
    requires |ps| == |ts| && Separate(ts) && Completes(Run(o, ts, ps, Start(c, |ts|), schedule))
    ensures Run(o, ts, ps, Start(c, |ts|), schedule).panicked <==> SomePoisoned(o, c, ts, ps)
  {
    hide Run, Poisoned;
    var end := Run(o, ts, ps, Start(c, |ts|), schedule);
    StartIsUnharmed(o, c, ts, ps);
    RunHarmsOrNot(o, c, ts, ps, Start(c, |ts|), schedule);
    if !end.panicked {
      assert forall k :: 0 <= k < |ts| ==> Unharmed(o, c, ts[k], ps[k], end.phases[k]);
    }
  }

  /** What the prefetch adds to the panics of the call. */
  ghost predicate BulkPanics(o: Oracle, ts: seq<Transaction>, order: seq<string>) {
    |ts| > BULK_THRESHOLD && FirstBadChunkGaps(o.bundlr, order)
  }

  ghost predicate BulkSucceeds(o: Oracle, ts: seq<Transaction>, order: seq<string>) {
    |ts| > BULK_THRESHOLD ==> !SomeFails(o.bundlr, order) && !GapInChunk(o.bundlr, order)
  }

  /**
   The whole call panics exactly if the first chunk of the bulk request that does not succeed has known timestamp
   proofs after missing ones and no failing answer, or the bulk request succeeds and a transaction is poisoned.
   */
  lemma {:induction false} CallPanicsIff(o: Oracle, c: Caches, ts: seq<Transaction>, order: seq<string>,
                                         schedule: seq<nat>)
    requires AnswersById(o.bundlr) && Separate(ts)
    requires Completes(Run(o, ts, Pointers(o, ts), Start(c, |ts|), schedule))
    ensures Processed(o, c, ts, order, schedule).1 == Panicked <==>
      BulkPanics(o, ts, order) || (BulkSucceeds(o, ts, order) && SomePoisoned(o, c, ts, NonePrefetched(ts)))
    ensures Run(o, ts, NonePrefetched(ts), Start(c, |ts|), schedule).panicked <==>
      SomePoisoned(o, c, ts, NonePrefetched(ts))
  {
    hide Run, FetchBulk, SomeFails, GapInChunk, SomePoisoned, FirstBadChunkGaps, Pointers;
    assert PointersAgree(ts) by { SeparatePointersAgree(ts); }
    SamePointersRun(o, ts, Start(c, |ts|), schedule);
    RunPanicsIff(o, c, ts, NonePrefetched(ts), schedule);
    BulkEndsIff(o.bundlr, order);
    BulkPanicsIff(o.bundlr, order);
  }

  lemma SeparatePointersAgree(ts: seq<Transaction>)
    requires Separate(ts)
    ensures PointersAgree(ts)
  {
    forall t, u | t in ts && u in ts && t.id == u.id ensures t == u {
      var i :| 0 <= i < |ts| && ts[i] == t;
      var j :| 0 <= j < |ts| && ts[j] == u;
      assert i == j;
    }
  }

  /** The future is at its proof, or the proof failed and the failure is in the cache. */
  ghost predicate FailingOrCached(ts: seq<Transaction>, s: State, i: nat)
    requires i < |ts| == |s.phases|
  {
    s.phases[i].ProofPending? || (s.phases[i].Done? && CachedFailure(s.caches, ts[i].id))
  }

  lemma {:induction false} FailureGetsCached(o: Oracle, ts: seq<Transaction>, ps: seq<Option<Transaction>>, s: State,
                                             schedule: seq<nat>, i: nat)
    requires |ps| == |ts| == |s.phases| && i < |ts| && Separate(ts) && o.proof(ts[i]).Err?
    requires FailingOrCached(ts, s, i)
    ensures FailingOrCached(ts, Run(o, ts, ps, s, schedule), i)
    decreases |schedule|
  {
    hide PointerVerdict;
    if schedule != [] {
      var k := schedule[0];
      assert k < |ts| && k != i ==> ts[k].id != ts[i].id;
      FailureGetsCached(o, ts, ps, Step(o, ts, ps, s, k), schedule[1..], i);
    }
  }

  /** A transaction whose proof fails in one call makes every later call panic that lists it and reaches it. */
  lemma {:induction false} FailedProofPanicsLater(o: Oracle, ts: seq<Transaction>, ps: seq<Option<Transaction>>,
                                                  s: State, schedule: seq<nat>, i: nat, us: seq<Transaction>,
                                                  qs: seq<Option<Transaction>>, later: seq<nat>)
    requires |ps| == |ts| == |s.phases| && i < |ts| && Separate(ts) && |qs| == |us| && Separate(us)
    requires s.phases[i].ProofPending? && o.proof(ts[i]).Err?
    requires var first := Run(o, ts, ps, s, schedule);
      && first.phases[i].Done?
      && Completes(Run(o, us, qs, Start(first.caches, |us|), later))
    requires exists j :: 0 <= j < |us| && us[j].id == ts[i].id && GetsToItself(o, us[j], qs[j])
    ensures Run(o, us, qs, Start(Run(o, ts, ps, s, schedule).caches, |us|), later).panicked
  {
    hide Run, PointerVerdict;
    FailureGetsCached(o, ts, ps, s, schedule, i);
    RunPanicsIff(o, Run(o, ts, ps, s, schedule).caches, us, qs, later);
  }

  // ----- The caches hold what was proved -----

  /** Verdicts are old ones or those of the proofs of this list, and each of these has its signature on record. */
  ghost predicate Earned(o: Oracle, first: Caches, ts: seq<Transaction>, c: Caches) {
    && first.signatures <= c.signatures
    && (forall id :: id in first.verdicts ==> id in c.verdicts)
    && (forall id :: id in c.verdicts ==>
          || (id in first.verdicts && c.verdicts[id] == first.verdicts[id])
          || exists t :: t in ts && t.id == id && c.verdicts[id] == o.proof(t) && t.signature in c.signatures)
    && (forall signature :: signature in c.signatures ==>
          signature in first.signatures || exists t :: t in ts && t.signature == signature && t.id in c.verdicts)
  }

  lemma RecordKeepsEarned(o: Oracle, first: Caches, ts: seq<Transaction>, c: Caches, t: Transaction)
    requires Earned(o, first, ts, c) && t in ts
    ensures Earned(o, first, ts, Record(c, t, o.proof(t)))
  {
  }

  /** Under every schedule, panics included, nothing else gets into the caches and nothing is forgotten. */
  lemma {:induction false} CachesAreEarned(o: Oracle, first: Caches, ts: seq<Transaction>, ps: seq<Option<Transaction>>,
                                           s: State, schedule: seq<nat>)
    requires |ps| == |ts| == |s.phases| && Earned(o, first, ts, s.caches)
    ensures Earned(o, first, ts, Run(o, ts, ps, s, schedule).caches)
    decreases |schedule|
  {
    hide Earned, Record;
    if schedule != [] {
      var i := schedule[0];
      if !s.panicked && i < |ts| && s.phases[i].ProofPending? {
        RecordKeepsEarned(o, first, ts, s.caches, ts[i]);
      }
      CachesAreEarned(o, first, ts, ps, Step(o, ts, ps, s, i), schedule[1..]);
    }
  }

  // ----- One success per signature -----

  ghost predicate BothPending(s: State, i: nat, j: nat) {
    i < |s.phases| && j < |s.phases| && s.phases[i].ProofPending? && s.phases[j].ProofPending?
  }

  /** At some moment of the run both proofs are being processed. */
  ghost predicate Overlap(o: Oracle, ts: seq<Transaction>, ps: seq<Option<Transaction>>, s: State,
                          schedule: seq<nat>, i: nat, j: nat)
    requires |ps| == |ts| == |s.phases|
    decreases |schedule|
  {
    || BothPending(s, i, j)
    || (schedule != [] && Overlap(o, ts, ps, Step(o, ts, ps, s, schedule[0]), schedule[1..], i, j))
  }

  ghost predicate Succeeded(s: State, i: nat) {
    i < |s.phases| && s.phases[i] == Done(Ok(()))
  }

  /** At most one of the two is past its signature check, and a success has its signature on record. */
  ghost predicate Apart(ts: seq<Transaction>, s: State, i: nat, j: nat)
    requires i < |ts| == |s.phases| && j < |ts|
  {
    && !BothPending(s, i, j)
    && !(Succeeded(s, i) && Succeeded(s, j))
    && !(Succeeded(s, i) && s.phases[j].ProofPending?)
    && !(s.phases[i].ProofPending? && Succeeded(s, j))
    && (Succeeded(s, i) || Succeeded(s, j) ==> ts[i].signature in s.caches.signatures)
  }

  lemma StepKeepsApart(o: Oracle, ts: seq<Transaction>, ps: seq<Option<Transaction>>, s: State, k: nat, i: nat, j: nat)
    requires |ps| == |ts| == |s.phases| && i < |ts| && j < |ts| && i != j && ts[i].signature == ts[j].signature
    requires Apart(ts, s, i, j) && !BothPending(Step(o, ts, ps, s, k), i, j)
    ensures Apart(ts, Step(o, ts, ps, s, k), i, j)
  {
  }

  lemma {:induction false} NoOverlapStaysApart(o: Oracle, ts: seq<Transaction>, ps: seq<Option<Transaction>>, s: State,
                                               schedule: seq<nat>, i: nat, j: nat)
    requires |ps| == |ts| == |s.phases| && i < |ts| && j < |ts| && i != j && ts[i].signature == ts[j].signature
    requires Apart(ts, s, i, j) && !Overlap(o, ts, ps, s, schedule, i, j)
    ensures Apart(ts, Run(o, ts, ps, s, schedule), i, j)
    decreases |schedule|
  {
    if schedule != [] {
      var next := Step(o, ts, ps, s, schedule[0]);
      assert !Overlap(o, ts, ps, next, schedule[1..], i, j);
      StepKeepsApart(o, ts, ps, s, schedule[0], i, j);
      NoOverlapStaysApart(o, ts, ps, next, schedule[1..], i, j);
    }
  }

  lemma {:induction false} PendingEndsInProof(o: Oracle, ts: seq<Transaction>, ps: seq<Option<Transaction>>, s: State,
                                              schedule: seq<nat>, i: nat)
    requires |ps| == |ts| == |s.phases| && i < |ts|
    requires s.phases[i].ProofPending? || s.phases[i] == Done(o.proof(ts[i]))
    ensures var phase := Run(o, ts, ps, s, schedule).phases[i]; phase.ProofPending? || phase == Done(o.proof(ts[i]))
    decreases |schedule|
  {
    if schedule != [] {
      PendingEndsInProof(o, ts, ps, Step(o, ts, ps, s, schedule[0]), schedule[1..], i);
    }
  }

  lemma {:induction false} OverlapEndsInProofs(o: Oracle, ts: seq<Transaction>, ps: seq<Option<Transaction>>, s: State,
                                               schedule: seq<nat>, i: nat, j: nat)
    requires |ps| == |ts| == |s.phases| && i < |ts| && j < |ts|
    requires Overlap(o, ts, ps, s, schedule, i, j)
    ensures var phase := Run(o, ts, ps, s, schedule).phases[i]; phase.ProofPending? || phase == Done(o.proof(ts[i]))
    ensures var phase := Run(o, ts, ps, s, schedule).phases[j]; phase.ProofPending? || phase == Done(o.proof(ts[j]))
    decreases |schedule|
  {
    if BothPending(s, i, j) {
      PendingEndsInProof(o, ts, ps, s, schedule, i);
      PendingEndsInProof(o, ts, ps, s, schedule, j);
    } else {
      OverlapEndsInProofs(o, ts, ps, Step(o, ts, ps, s, schedule[0]), schedule[1..], i, j);
    }
  }

  /**
   Two transactions with one signature, both with valid proofs, run to their ends: both succeed exactly if their
   proofs were in progress at the same time. The signature is recorded only after the proof.
   */
  lemma {:induction false} TwoSuccessesIff(o: Oracle, c: Caches, ts: seq<Transaction>, ps: seq<Option<Transaction>>,
                                           schedule: seq<nat>, i: nat, j: nat)
    requires |ps| == |ts| && i < |ts| && j < |ts| && i != j && ts[i].signature == ts[j].signature
    requires o.proof(ts[i]).Ok? && o.proof(ts[j]).Ok?
    requires var end := Run(o, ts, ps, Start(c, |ts|), schedule); end.phases[i].Done? && end.phases[j].Done?
    ensures var end := Run(o, ts, ps, Start(c, |ts|), schedule);
      (Succeeded(end, i) && Succeeded(end, j)) <==> Overlap(o, ts, ps, Start(c, |ts|), schedule, i, j)
  {
    var s := Start(c, |ts|);
    if Overlap(o, ts, ps, s, schedule, i, j) {
      OverlapEndsInProofs(o, ts, ps, s, schedule, i, j);
      assert o.proof(ts[i]).value == o.proof(ts[j]).value == ();
    } else {
      NoOverlapStaysApart(o, ts, ps, s, schedule, i, j);
    }
  }

  // ----- The order of `join_all` -----

  /**
   `join_all` polls every future before it polls one again, and a valid proof waits for the node. So no valid proof
   is done before every future has taken its first step. (A proof that fails at once may be done in the first poll.)
   */
  ghost predicate ValidProofsWait(o: Oracle, ts: seq<Transaction>, ps: seq<Option<Transaction>>, s: State,
                                  schedule: seq<nat>)
    requires |ps| == |ts| == |s.phases|
    decreases |schedule|
  {
    schedule == [] ||
    (WaitsForAll(o, ts, s, schedule[0]) && ValidProofsWait(o, ts, ps, Step(o, ts, ps, s, schedule[0]), schedule[1..]))
  }

  ghost predicate WaitsForAll(o: Oracle, ts: seq<Transaction>, s: State, i: nat)
    requires |ts| == |s.phases|
  {
    i < |ts| && s.phases[i].ProofPending? && o.proof(ts[i]).Ok? ==>
      forall k :: 0 <= k < |ts| ==> !s.phases[k].Fresh?
  }

  ghost predicate AllValid(o: Oracle, ts: seq<Transaction>, signature: string) {
    forall t :: t in ts && t.signature == signature ==> o.proof(t).Ok?
  }

  /** A valid transaction without a pointer is not refused, as its signature is not recorded before all have begun. */
  ghost predicate NotRefused(ts: seq<Transaction>, s: State, i: nat)
    requires i < |ts| == |s.phases|
  {
    && ((exists k :: 0 <= k < |ts| && s.phases[k].Fresh?) ==> ts[i].signature !in s.caches.signatures)
    && (s.phases[i].Fresh? || s.phases[i].ProofPending? || s.phases[i] == Done(Ok(())))
  }

  lemma {:induction false} StepDoesNotRefuse(o: Oracle, ts: seq<Transaction>, ps: seq<Option<Transaction>>, s: State,
                                             k: nat, i: nat)
    requires |ps| == |ts| == |s.phases| && i < |ts| && ts[i].pointer.None?
    requires AllValid(o, ts, ts[i].signature) && NotRefused(ts, s, i) && WaitsForAll(o, ts, s, k)
    ensures NotRefused(ts, Step(o, ts, ps, s, k), i)
  {
    assert ts[i] in ts && o.proof(ts[i]).value == ();
    if k < |ts| {
      assert ts[k] in ts;
    }
  }

  lemma {:induction false} ValidStayUnrefused(o: Oracle, ts: seq<Transaction>, ps: seq<Option<Transaction>>, s: State,
                                              schedule: seq<nat>, i: nat)
    requires |ps| == |ts| == |s.phases| && i < |ts| && ts[i].pointer.None?
    requires AllValid(o, ts, ts[i].signature) && NotRefused(ts, s, i) && ValidProofsWait(o, ts, ps, s, schedule)
    ensures NotRefused(ts, Run(o, ts, ps, s, schedule), i)
    decreases |schedule|
  {
    hide AllValid, NotRefused, WaitsForAll, Step;
    if schedule != [] {
      StepDoesNotRefuse(o, ts, ps, s, schedule[0], i);
      ValidStayUnrefused(o, ts, ps, Step(o, ts, ps, s, schedule[0]), schedule[1..], i);
    }
  }

  /**
   One call gives one unrecorded signature as many successes as there are transactions with it: if they are all
   valid, each of them without a pointer succeeds in every call that returns.
   */
  lemma {:induction false} TogetherAllSucceed(o: Oracle, c: Caches, ts: seq<Transaction>, ps: seq<Option<Transaction>>,
                           schedule: seq<nat>, signature: string)
    requires |ps| == |ts| && signature !in c.signatures && AllValid(o, ts, signature)
    requires ValidProofsWait(o, ts, ps, Start(c, |ts|), schedule)
    requires var end := Run(o, ts, ps, Start(c, |ts|), schedule); Completes(end) && !end.panicked
    ensures var end := Run(o, ts, ps, Start(c, |ts|), schedule);
      forall i :: 0 <= i < |ts| && ts[i].signature == signature && ts[i].pointer.None? ==> Succeeded(end, i)
  {
    var end := Run(o, ts, ps, Start(c, |ts|), schedule);
    forall i | 0 <= i < |ts| && ts[i].signature == signature && ts[i].pointer.None? ensures Succeeded(end, i) {
      ValidStayUnrefused(o, ts, ps, Start(c, |ts|), schedule, i);
    }
  }

  /** That all of them are valid is needed: one whose proof fails at once uses the signature up. */
  lemma {:induction false} EarlyFailureRefuses(o: Oracle, c: Caches, bad: Transaction, t: Transaction)
    returns (schedule: seq<nat>)
    requires bad.pointer.None? && t.pointer.None? && bad.id != t.id && bad.signature == t.signature
    requires o.proof(bad).Err? && o.proof(t).Ok? && t.signature !in c.signatures
    requires !CachedFailure(c, bad.id) && !CachedFailure(c, t.id)
    ensures var (ts, ps) := ([bad, t], [None, None]);
      && ValidProofsWait(o, ts, ps, Start(c, 2), schedule)
      && var end := Run(o, ts, ps, Start(c, 2), schedule);
         Completes(end) && !end.panicked && end.phases[1] == Done(Err(ChainSignatureAlreadyUsed))
  {
    schedule := [0, 0, 1];
    var ts, ps: seq<Option<Transaction>> := [bad, t], [None, None];
    assert schedule[1..] == [0, 1] && schedule[1..][1..] == [1] && schedule[1..][1..][1..] == [];
    var s0 := Start(c, 2);
    var s1 := Step(o, ts, ps, s0, 0);
    assert s1.phases == [ProofPending, Fresh];
    var s2 := Step(o, ts, ps, s1, 0);
    assert s2.phases == [Done(o.proof(bad)), Fresh] && !CachedFailure(s2.caches, t.id);
    var s3 := Step(o, ts, ps, s2, 1);
    assert Run(o, ts, ps, s0, schedule) == Run(o, ts, ps, s1, [0, 1]) == Run(o, ts, ps, s2, [1]) == s3;
  }

  ghost predicate Refused(ts: seq<Transaction>, s: State, i: nat)
    requires i < |ts| == |s.phases|
  {
    ts[i].signature in s.caches.signatures && !s.phases[i].ProofPending? && !Succeeded(s, i)
  }

  /** From one call to the next the record does its work: a recorded signature never succeeds, under any schedule. */
  lemma {:induction false} RecordedSignatureIsRefused(o: Oracle, ts: seq<Transaction>, ps: seq<Option<Transaction>>,
                                                      s: State, schedule: seq<nat>, i: nat)
    requires |ps| == |ts| == |s.phases| && i < |ts| && Refused(ts, s, i)
    ensures Refused(ts, Run(o, ts, ps, s, schedule), i)
    decreases |schedule|
  {
    if schedule != [] {
      RecordedSignatureIsRefused(o, ts, ps, Step(o, ts, ps, s, schedule[0]), schedule[1..], i);
    }
  }

  // ----- Which signatures can succeed twice in a call -----

  /** Nothing but the used signature stands in the way of this transaction. */
  ghost predicate CanPass(o: Oracle, t: Transaction, prefetched: Option<Transaction>) {
    o.proof(t).Ok? && GetsToItself(o, t, prefetched)
  }

  ghost predicate PassedPointer(o: Oracle, t: Transaction, prefetched: Option<Transaction>, phase: Phase) {
    phase.ProofPending? || phase == Done(Ok(())) ==>
      GetsToItself(o, t, prefetched) && (phase.Done? ==> o.proof(t).Ok?)
  }

  lemma {:induction false} SuccessHasPassed(o: Oracle, ts: seq<Transaction>, ps: seq<Option<Transaction>>, s: State,
                                            schedule: seq<nat>, i: nat)
    requires |ps| == |ts| == |s.phases| && i < |ts| && PassedPointer(o, ts[i], ps[i], s.phases[i])
    ensures PassedPointer(o, ts[i], ps[i], Run(o, ts, ps, s, schedule).phases[i])
    decreases |schedule|
  {
    if schedule != [] {
      hide PointerVerdict, ResolvesTo;
      if ts[i].pointer.Some? {
        PointerVerdictIff(o, ts[i], ps[i]);
      }
      SuccessHasPassed(o, ts, ps, Step(o, ts, ps, s, schedule[0]), schedule[1..], i);
    }
  }

  /** A pointer that does not get a transaction to itself ends it with this error, in every run. */
  lemma {:induction false} FailingPointerEnds(o: Oracle, ts: seq<Transaction>, ps: seq<Option<Transaction>>, s: State,
                                              schedule: seq<nat>, i: nat, e: VerifierError)
    requires |ps| == |ts| == |s.phases| && i < |ts| && ts[i].pointer.Some?
    requires PointerFails(o, ts[i], ps[i], e) && AtPointer(s.phases[i], e)
    ensures AtPointer(Run(o, ts, ps, s, schedule).phases[i], e)
    decreases |schedule|
  {
    if schedule != [] {
      hide PointerVerdict, PointerFails;
      PointerFailsWith(o, ts[i], ps[i], e);
      FailingPointerEnds(o, ts, ps, Step(o, ts, ps, s, schedule[0]), schedule[1..], i, e);
    }
  }

  /** The pointer resolves to a failing proof, or it cannot be fetched, or there is nothing under its id. */
  ghost predicate PointerFails(o: Oracle, t: Transaction, prefetched: Option<Transaction>, e: VerifierError)
    requires t.pointer.Some?
  {
    || (e.PointerFailedVerification? && exists p :: ResolvesTo(o, t, prefetched, p) && o.proof(p).Err?)
    || (prefetched.None? && Summary(o.bundlr, PointerId(t)) == Err(e))
    || (prefetched.None? && Summary(o.bundlr, PointerId(t)) == Ok(None) && e.CannotConnectToBundlr?)
  }

  lemma {:induction false} PointerFailsWith(o: Oracle, t: Transaction, prefetched: Option<Transaction>,
                                            e: VerifierError)
    requires t.pointer.Some?
    ensures PointerVerdict(o, t, prefetched) == Err(e) <==> PointerFails(o, t, prefetched, e)
  {
    hide PointerVerdict, Summary, PointerId;
    PointerVerdictIff(o, t, prefetched);
    if prefetched.Some? {
      assert ResolvesTo(o, t, prefetched, prefetched.value);
    } else if Summary(o.bundlr, PointerId(t)).Ok? && Summary(o.bundlr, PointerId(t)).value.Some? {
      assert ResolvesTo(o, t, prefetched, Summary(o.bundlr, PointerId(t)).value.value);
    }
  }

  ghost predicate AtPointer(phase: Phase, e: VerifierError) {
    phase.Fresh? || phase.PointerPending? || phase == Done(Err(e))
  }

  ghost predicate NoneFresh(s: State) {
    forall k :: 0 <= k < |s.phases| ==> !s.phases[k].Fresh?
  }

  lemma {:induction false} NoneFreshWaits(o: Oracle, ts: seq<Transaction>, ps: seq<Option<Transaction>>, s: State,
                                          schedule: seq<nat>)
    requires |ps| == |ts| == |s.phases| && NoneFresh(s)
    ensures ValidProofsWait(o, ts, ps, s, schedule) && NoneFresh(Run(o, ts, ps, s, schedule))
    decreases |schedule|
  {
    if schedule != [] {
      hide PointerVerdict;
      NoneFreshWaits(o, ts, ps, Step(o, ts, ps, s, schedule[0]), schedule[1..]);
    }
  }

  lemma {:induction false} WaitsAppend(o: Oracle, ts: seq<Transaction>, ps: seq<Option<Transaction>>, s: State,
                                       a: seq<nat>, b: seq<nat>)
    requires |ps| == |ts| == |s.phases|
    requires ValidProofsWait(o, ts, ps, s, a) && ValidProofsWait(o, ts, ps, Run(o, ts, ps, s, a), b)
    ensures ValidProofsWait(o, ts, ps, s, a + b)
    decreases |a|
  {
    hide Step, WaitsForAll;
    if a == [] {
      assert a + b == b;
    } else {
      assert (a + b)[1..] == a[1..] + b;
      WaitsAppend(o, ts, ps, Step(o, ts, ps, s, a[0]), a[1..], b);
    }
  }

  function FirstPolls(n: nat): seq<nat> {
    seq(n, k => k)
  }

  /** After the first `n` futures were polled once: they have begun, and nothing is recorded. */
  ghost predicate Begun(c: Caches, ts: seq<Transaction>, s: State, n: nat)
    requires |s.phases| == |ts| && n <= |ts|
  {
    && !s.panicked && s.caches == c
    && (forall k :: 0 <= k < |ts| ==> s.phases[k].Fresh? == (k >= n))
    && (forall k :: 0 <= k < n && ts[k].signature !in c.signatures ==>
          if ts[k].pointer.Some? then s.phases[k].PointerPending? else s.phases[k].ProofPending?)
  }

  lemma {:induction false} FirstPollsBegin(o: Oracle, c: Caches, ts: seq<Transaction>, ps: seq<Option<Transaction>>,
                                           n: nat)
    requires |ps| == |ts| && n <= |ts| && !SomePoisoned(o, c, ts, ps)
    ensures Begun(c, ts, Run(o, ts, ps, Start(c, |ts|), FirstPolls(n)), n)
    ensures ValidProofsWait(o, ts, ps, Start(c, |ts|), FirstPolls(n))
  {
    var start := Start(c, |ts|);
    if n > 0 {
      hide PointerVerdict, Run, ValidProofsWait;
      var before := Run(o, ts, ps, start, FirstPolls(n - 1));
      FirstPollsBegin(o, c, ts, ps, n - 1);
      assert FirstPolls(n) == FirstPolls(n - 1) + [n - 1];
      assert !Poisoned(o, c, ts[n - 1], ps[n - 1]);
      OneStep(o, ts, ps, before, n - 1);
      RunAppend(o, ts, ps, start, FirstPolls(n - 1), [n - 1]);
      WaitsAppend(o, ts, ps, start, FirstPolls(n - 1), [n - 1]);
    }
  }

  lemma {:induction false} OneStep(o: Oracle, ts: seq<Transaction>, ps: seq<Option<Transaction>>, s: State, k: nat)
    requires |ps| == |ts| == |s.phases|
    ensures Run(o, ts, ps, s, [k]) == Step(o, ts, ps, s, k)
    ensures ValidProofsWait(o, ts, ps, s, [k]) <==> WaitsForAll(o, ts, s, k)
  {
    hide Step, WaitsForAll;
    assert [k][1..] == [];
  }

  /** A pending pointer that is in order leads to the proof, and records nothing. */
  lemma {:induction false} PassPointer(o: Oracle, c: Caches, ts: seq<Transaction>, ps: seq<Option<Transaction>>,
                                       s: State, i: nat)
    returns (schedule: seq<nat>)
    requires |ps| == |ts| == |s.phases| && i < |ts| && !s.panicked && s.caches == c
    requires !Poisoned(o, c, ts[i], ps[i]) && CanPass(o, ts[i], ps[i]) && ts[i].signature !in c.signatures
    requires if ts[i].pointer.Some? then s.phases[i].PointerPending? else s.phases[i].ProofPending?
    ensures var r := Run(o, ts, ps, s, schedule);
      r == s.(phases := s.phases[i := ProofPending])
  {
    if ts[i].pointer.Some? {
      hide PointerVerdict, Run, ResolvesTo;
      PointerVerdictIff(o, ts[i], ps[i]);
      schedule := [i];
      OneStep(o, ts, ps, s, i);
    } else {
      schedule := [];
      assert s.phases == s.phases[i := ProofPending];
    }
  }

  /** Two steps end a future that has begun. */
  lemma {:induction false} TwoSteps(o: Oracle, ts: seq<Transaction>, ps: seq<Option<Transaction>>, s: State, k: nat)
    requires |ps| == |ts| == |s.phases| && k < |ts| && !s.phases[k].Fresh?
    requires s.phases[k].PointerPending? ==> ts[k].pointer.Some?
    ensures var r := Run(o, ts, ps, s, [k, k]);
      && (r.panicked || r.phases[k].Done?)
      && forall m :: 0 <= m < |ts| && s.phases[m].Done? ==> r.phases[m] == s.phases[m]
  {
    hide PointerVerdict;
    assert [k, k][1..] == [k] && [k][1..] == [];
    var s1 := Step(o, ts, ps, s, k);
    assert Run(o, ts, ps, s, [k, k]) == Run(o, ts, ps, s1, [k]) == Step(o, ts, ps, s1, k);
  }

  function Rest(n: nat): seq<nat> {
    if n == 0 then [] else Rest(n - 1) + [n - 1, n - 1]
  }

  ghost predicate DoneSoFar(s: State, r: State, n: nat) {
    && |r.phases| == |s.phases| && n <= |s.phases|
    && (r.panicked || forall k :: 0 <= k < n ==> r.phases[k].Done?)
    && (forall k :: 0 <= k < |s.phases| && s.phases[k].Done? ==> r.phases[k] == s.phases[k])
  }

  /** All futures can be brought to their ends, and what is done stays as it is. */
  lemma {:induction false} RestEnds(o: Oracle, c: Caches, ts: seq<Transaction>, ps: seq<Option<Transaction>>, s: State,
                                    n: nat)
    requires |ps| == |ts| == |s.phases| && n <= |ts| && Separate(ts) && NoneFresh(s) && AllUnharmed(o, c, ts, ps, s)
    requires !SomePoisoned(o, c, ts, ps)
    ensures DoneSoFar(s, Run(o, ts, ps, s, Rest(n)), n) && AllUnharmed(o, c, ts, ps, Run(o, ts, ps, s, Rest(n)))
  {
    hide Run, Separate, SomePoisoned, OldFailures;
    RunHarmsOrNot(o, c, ts, ps, s, Rest(n));
    if n == 0 {
      EmptyRun(o, ts, ps, s);
    } else {
      var before := Run(o, ts, ps, s, Rest(n - 1));
      RestEnds(o, c, ts, ps, s, n - 1);
      NoneFreshWaits(o, ts, ps, s, Rest(n - 1));
      RunAppend(o, ts, ps, s, Rest(n - 1), [n - 1, n - 1]);
      assert Unharmed(o, c, ts[n - 1], ps[n - 1], before.phases[n - 1]);
      TwoSteps(o, ts, ps, before, n - 1);
    }
  }

  lemma {:induction false} EmptyRun(o: Oracle, ts: seq<Transaction>, ps: seq<Option<Transaction>>, s: State)
    requires |ps| == |ts| == |s.phases|
    ensures Run(o, ts, ps, s, []) == s
  {
  }

  /** Both proofs pending: two steps make two successes. */
  lemma {:induction false} FinishBoth(o: Oracle, ts: seq<Transaction>, ps: seq<Option<Transaction>>, s: State, i: nat,
                                      j: nat)
    requires |ps| == |ts| == |s.phases| && i < |ts| && j < |ts| && i != j && !s.panicked
    requires BothPending(s, i, j) && o.proof(ts[i]).Ok? && o.proof(ts[j]).Ok?
    ensures var r := Run(o, ts, ps, s, [i, j]); Succeeded(r, i) && Succeeded(r, j)
  {
    hide PointerVerdict;
    assert [i, j][1..] == [j] && [j][1..] == [];
    assert o.proof(ts[i]).value == o.proof(ts[j]).value == ();
    var s1 := Step(o, ts, ps, s, i);
    assert Run(o, ts, ps, s, [i, j]) == Run(o, ts, ps, s1, [j]) == Step(o, ts, ps, s1, j);
  }

  ghost predicate BothSucceedIn(o: Oracle, c: Caches, ts: seq<Transaction>, ps: seq<Option<Transaction>>,
                                schedule: seq<nat>, i: nat, j: nat)
    requires |ps| == |ts|
  {
    var end := Run(o, ts, ps, Start(c, |ts|), schedule);
    ValidProofsWait(o, ts, ps, Start(c, |ts|), schedule) && Completes(end) && Succeeded(end, i) && Succeeded(end, j)
  }

  /** Everyone begins, both reach their proofs, both finish, and then the others. */
  lemma {:induction false} BothBegin(o: Oracle, c: Caches, ts: seq<Transaction>, ps: seq<Option<Transaction>>, i: nat,
                                     j: nat)
    returns (schedule: seq<nat>)
    requires |ps| == |ts| && i < |ts| && j < |ts| && i != j && !SomePoisoned(o, c, ts, ps)
    requires CanPass(o, ts[i], ps[i]) && CanPass(o, ts[j], ps[j])
    requires ts[i].signature !in c.signatures && ts[j].signature !in c.signatures
    ensures var s := Run(o, ts, ps, Start(c, |ts|), schedule);
      ValidProofsWait(o, ts, ps, Start(c, |ts|), schedule) && NoneFresh(s) && !s.panicked && BothPending(s, i, j)
  {
    hide CanPass, Run, ValidProofsWait, FirstPolls;
    var start, polls := Start(c, |ts|), FirstPolls(|ts|);
    FirstPollsBegin(o, c, ts, ps, |ts|);
    assert !Poisoned(o, c, ts[i], ps[i]) && !Poisoned(o, c, ts[j], ps[j]);
    hide Poisoned, SomePoisoned;
    var s1 := Run(o, ts, ps, start, polls);
    var a := PassPointer(o, c, ts, ps, s1, i);
    var s2 := Run(o, ts, ps, s1, a);
    var b := PassPointer(o, c, ts, ps, s2, j);
    schedule := polls + a + b;
    RunAppend(o, ts, ps, start, polls, a);
    RunAppend(o, ts, ps, start, polls + a, b);
    NoneFreshWaits(o, ts, ps, s1, a);
    NoneFreshWaits(o, ts, ps, s2, b);
    WaitsAppend(o, ts, ps, start, polls, a);
    WaitsAppend(o, ts, ps, start, polls + a, b);
  }

  lemma {:induction false} BothThenRest(o: Oracle, c: Caches, ts: seq<Transaction>, ps: seq<Option<Transaction>>,
                                        first: seq<nat>, i: nat, j: nat)
    returns (schedule: seq<nat>)
    requires |ps| == |ts| && Separate(ts) && i < |ts| && j < |ts| && i != j && !SomePoisoned(o, c, ts, ps)
    requires o.proof(ts[i]).Ok? && o.proof(ts[j]).Ok?
    requires var s := Run(o, ts, ps, Start(c, |ts|), first);
      ValidProofsWait(o, ts, ps, Start(c, |ts|), first) && NoneFresh(s) && !s.panicked && BothPending(s, i, j)
    ensures BothSucceedIn(o, c, ts, ps, schedule, i, j)
  {
    hide Run, ValidProofsWait, Separate, SomePoisoned, Rest;
    var start := Start(c, |ts|);
    var s := Run(o, ts, ps, start, first);
    var both := Run(o, ts, ps, s, [i, j]);
    FinishBoth(o, ts, ps, s, i, j);
    NoneFreshWaits(o, ts, ps, s, [i, j]);
    RunAppend(o, ts, ps, start, first, [i, j]);
    WaitsAppend(o, ts, ps, start, first, [i, j]);
    StartIsUnharmed(o, c, ts, ps);
    RunHarmsOrNot(o, c, ts, ps, start, first + [i, j]);
    RestEnds(o, c, ts, ps, both, |ts|);
    UnharmedRuns(o, c, ts, ps, Run(o, ts, ps, both, Rest(|ts|)));
    NoneFreshWaits(o, ts, ps, both, Rest(|ts|));
    RunAppend(o, ts, ps, start, first + [i, j], Rest(|ts|));
    WaitsAppend(o, ts, ps, start, first + [i, j], Rest(|ts|));
    schedule := first + [i, j] + Rest(|ts|);
  }

  /**
   In the order of `join_all`, two transactions of one call with one signature can both succeed exactly if both
   proofs are valid, both pointers are in order, and the signature was not recorded before the call.
   */
  lemma {:induction false} BothCanSucceedIff(o: Oracle, c: Caches, ts: seq<Transaction>, ps: seq<Option<Transaction>>,
                                             i: nat, j: nat)
    requires |ps| == |ts| && Separate(ts) && !SomePoisoned(o, c, ts, ps)
    requires i < |ts| && j < |ts| && i != j && ts[i].signature == ts[j].signature
    ensures (exists schedule :: BothSucceedIn(o, c, ts, ps, schedule, i, j)) <==>
      CanPass(o, ts[i], ps[i]) && CanPass(o, ts[j], ps[j]) && ts[i].signature !in c.signatures
  {
    hide Run, ValidProofsWait, Separate, SomePoisoned, PointerVerdict;
    if schedule :| BothSucceedIn(o, c, ts, ps, schedule, i, j) {
      SuccessHasPassed(o, ts, ps, Start(c, |ts|), schedule, i);
      SuccessHasPassed(o, ts, ps, Start(c, |ts|), schedule, j);
      if ts[i].signature in c.signatures {
        RecordedSignatureIsRefused(o, ts, ps, Start(c, |ts|), schedule, i);
      }
    }
    if CanPass(o, ts[i], ps[i]) && CanPass(o, ts[j], ps[j]) && ts[i].signature !in c.signatures {
      var first := BothBegin(o, c, ts, ps, i, j);
      var schedule := BothThenRest(o, c, ts, ps, first, i, j);
    }
  }

  // ----- The program -----

  /** `find` in the bulk response. */
  function Find(found: seq<Transaction>, id: string): (r: Option<Transaction>)
    ensures r.Some? ==> r.value in found && r.value.id == id
    ensures r.None? ==> forall t :: t in found ==> t.id != id
  {
    if found == [] then None else if found[0].id == id then Some(found[0]) else Find(found[1..], id)
  }

  class Verifier {
    var verdicts: map<string, Verdict>
    var signatures: set<string>

    function Contents(): Caches
      reads this
    {
      Caches(verdicts, signatures)
    }

    constructor ()
      ensures Contents() == Caches(map[], {})
    {
      verdicts, signatures := map[], {};
    }

    /** From the pointer, if any, on: the transaction's own cached verdict, then its signature. */
    method LookUp(t: Transaction) returns (phase: Option<Phase>)
      ensures phase ==
        if CachedFailure(Contents(), t.id) then None
        else if t.signature in signatures then Some(Done(Err(ChainSignatureAlreadyUsed)))
        else Some(ProofPending)
    {
      if t.id in verdicts && verdicts[t.id].Err? {
        return None;
      }
      phase := Some(if t.signature in signatures then Done(Err(ChainSignatureAlreadyUsed)) else ProofPending);
    }

    /** A future takes its next step; none is a panic. */
    method Poll(o: Oracle, t: Transaction, prefetched: Option<Transaction>, phase: Phase) returns (next: Option<Phase>)
      requires phase.PointerPending? ==> t.pointer.Some?
      modifies this
      ensures var s := Step(o, [t], [prefetched], State(old(Contents()), [phase], false), 0);
        Contents() == s.caches && s.panicked == next.None? && (next.Some? ==> s.phases == [next.value])
    {
      match phase {
        case Fresh =>
          if t.pointer.None? {
            next := LookUp(t);
          } else {
            var pointerId := RemoveAll(t.pointer.value, ARWEAVE);
            next := if pointerId in verdicts && verdicts[pointerId].Err? then None else Some(PointerPending);
          }
        case PointerPending =>
          var verdict := PointerVerdict(o, t, prefetched);
          if verdict.Err? {
            next := Some(Done(verdict));
          } else {
            next := LookUp(t);
          }
        case ProofPending =>
          var result := o.proof(t);
          signatures := signatures + {t.signature};
          verdicts := verdicts[t.id := result];
          next := Some(Done(result));
        case Done(_) =>
          next := Some(phase);
      }
    }

    /** The prefetch: nothing for short lists. */
    method Prefetch(o: Oracle, ts: seq<Transaction>, order: seq<string>)
    returns (r: Bulk, prefetched: seq<Option<Transaction>>)
      requires AnswersById(o.bundlr) && Enumerates(order, PointerIds(ts).Values)
      ensures r == if |ts| > 10 then FetchBulk(o.bundlr, order) else Fetched([])
      ensures |ts| <= 10 ==> r == Fetched([]) && forall i :: 0 <= i < |prefetched| ==> prefetched[i].None?
      ensures r.Fetched? ==> |prefetched| == |ts| && prefetched == Pointers(o, ts)
    {
      hide FetchBulk, FetchOne;
      prefetched := NonePrefetched(ts);
      if |ts| <= BULK_THRESHOLD {
        return Fetched([]), prefetched;
      }
      var pointerIds := map[];
      for i := 0 to |ts|
        invariant pointerIds == PointerIds(ts[..i])
      {
        assert ts[..i + 1][..i] == ts[..i];
        if ts[i].pointer.Some? {
          pointerIds := pointerIds[ts[i].id := RemoveAll(ts[i].pointer.value, ARWEAVE)];
        }
      }
      assert ts[..|ts|] == ts;
      r := RequestBulk(o.bundlr, order);
      if r.Fetched? {
        BulkEndsIff(o.bundlr, order);
        for i := 0 to |ts|
          invariant |prefetched| == |ts|
          invariant forall k :: 0 <= k < i ==> prefetched[k] == Prefetched(o, pointerIds, ts[k])
          invariant forall k :: i <= k < |ts| ==> prefetched[k] == None
        {
          if ts[i].id in pointerIds {
            var pointerId := pointerIds[ts[i].id];
            assert pointerId in pointerIds.Values;
            var found := Find(r.transactions, pointerId);
            FindIsSummary(o.bundlr, order, r.transactions, pointerId);
            prefetched := prefetched[i := found];
          }
        }
        assert prefetched == AllPrefetched(o, ts);
      }
    }

    /** `schedule` is the order in which the futures take their steps, until all are done or one panics. */
    method ProcessProofs(o: Oracle, ts: seq<Transaction>, order: seq<string>, schedule: seq<nat>)
      returns (outcome: Outcome)
      requires AnswersById(o.bundlr) && Enumerates(order, PointerIds(ts).Values)
      requires Completes(Run(o, ts, Pointers(o, ts), Start(Contents(), |ts|), schedule))
      modifies this
      ensures (Contents(), outcome) == Processed(o, old(Contents()), ts, order, schedule)
      ensures outcome.Finished? ==>
        && |outcome.verdicts| == |ts|
        && var end := Run(o, ts, Pointers(o, ts), Start(old(Contents()), |ts|), schedule);
           !end.panicked && forall i :: 0 <= i < |ts| ==> end.phases[i] == Done(outcome.verdicts[i])
    {
      hide FetchBulk, FetchOne, Pointers, Step, PointerIds;
      var bulk, prefetched := Prefetch(o, ts, order);
      if bulk.Failed? {
        return BulkFailed(bulk.error);
      }
      if bulk.AssertionFails? {
        return Panicked;
      }
      var phases: seq<Phase> := seq(|ts|, _ => Fresh);
      ghost var start := State(Contents(), phases, false);
      assert start == Start(Contents(), |ts|);
      for k := 0 to |schedule|
        invariant |phases| == |ts| && PointersOnly(ts, phases)
        invariant State(Contents(), phases, false) == Run(o, ts, prefetched, start, schedule[..k])
      {
        var i := schedule[k];
        RunSnoc(o, ts, prefetched, start, schedule, k);
        if i < |ts| {
          StepAlone(o, ts, prefetched, State(Contents(), phases, false), i);
          var next := Poll(o, ts[i], prefetched[i], phases[i]);
          if next.None? {
            PanicDecides(o, ts, prefetched, start, schedule, k + 1);
            return Panicked;
          }
          phases := phases[i := next.value];
        } else {
          StepOutside(o, ts, prefetched, State(Contents(), phases, false), i);
        }
      }
      assert schedule[..|schedule|] == schedule;
      outcome := Finished(Verdicts(phases));
    }
  }

  lemma {:induction false} FindIsSummary(b: Bundlr, order: seq<string>, found: seq<Transaction>, id: string)
    requires AnswersById(b) && id in order && !SomeFails(b, order)
    requires forall t :: t in found <==> exists id :: id in order && Summary(b, id) == Ok(Some(t))
    ensures Summary(b, id).Ok? && Find(found, id) == Summary(b, id).value
  {
    var r := Find(found, id);
    if Summary(b, id).value.Some? {
      assert Summary(b, id).value.value in found;
    }
    if r.Some? {
      var other :| other in order && Summary(b, other) == Ok(Some(r.value));
      assert other == id;
    }
  }

  ghost predicate PointersOnly(ts: seq<Transaction>, phases: seq<Phase>)
    requires |phases| == |ts|
  {
    forall i :: 0 <= i < |ts| && phases[i].PointerPending? ==> ts[i].pointer.Some?
  }

  /** The step of one future is that of a list of one. */
  lemma StepAlone(o: Oracle, ts: seq<Transaction>, ps: seq<Option<Transaction>>, s: State, i: nat)
    requires |ps| == |ts| == |s.phases| && i < |ts| && !s.panicked && PointersOnly(ts, s.phases)
    ensures var alone := Step(o, [ts[i]], [ps[i]], State(s.caches, [s.phases[i]], false), 0);
      var next := Step(o, ts, ps, s, i);
      && next.caches == alone.caches && next.panicked == alone.panicked
      && (!alone.panicked ==> next.phases == s.phases[i := alone.phases[0]] && PointersOnly(ts, next.phases))
  {
  }

  lemma StepOutside(o: Oracle, ts: seq<Transaction>, ps: seq<Option<Transaction>>, s: State, i: nat)
    requires |ps| == |ts| == |s.phases| && i >= |ts|
    ensures Step(o, ts, ps, s, i) == s
  {
  }

  lemma {:induction false} RunAppend(o: Oracle, ts: seq<Transaction>, ps: seq<Option<Transaction>>, s: State,
                                     first: seq<nat>, second: seq<nat>)
    requires |ps| == |ts| == |s.phases|
    ensures Run(o, ts, ps, s, first + second) == Run(o, ts, ps, Run(o, ts, ps, s, first), second)
    decreases |first|
  {
    hide Step;
    if first == [] {
      assert first + second == second;
    } else {
      assert (first + second)[1..] == first[1..] + second;
      RunAppend(o, ts, ps, Step(o, ts, ps, s, first[0]), first[1..], second);
    }
  }

  lemma {:induction false} RunSnoc(o: Oracle, ts: seq<Transaction>, ps: seq<Option<Transaction>>, s: State,
                                   schedule: seq<nat>, k: nat)
    requires |ps| == |ts| == |s.phases| && k < |schedule|
    ensures Run(o, ts, ps, s, schedule[..k + 1]) == Step(o, ts, ps, Run(o, ts, ps, s, schedule[..k]), schedule[k])
  {
    hide Step;
    var middle := Run(o, ts, ps, s, schedule[..k]);
    assert schedule[..k + 1] == schedule[..k] + [schedule[k]] && [schedule[k]][1..] == [];
    RunAppend(o, ts, ps, s, schedule[..k], [schedule[k]]);
    assert Run(o, ts, ps, middle, [schedule[k]]) == Step(o, ts, ps, middle, schedule[k]);
  }

  lemma {:induction false} PanicStays(o: Oracle, ts: seq<Transaction>, ps: seq<Option<Transaction>>, s: State,
                                      schedule: seq<nat>)
    requires |ps| == |ts| == |s.phases| && s.panicked
    ensures Run(o, ts, ps, s, schedule) == s
    decreases |schedule|
  {
    if schedule != [] {
      PanicStays(o, ts, ps, s, schedule[1..]);
    }
  }

  lemma {:induction false} PanicDecides(o: Oracle, ts: seq<Transaction>, ps: seq<Option<Transaction>>, s: State,
                                        schedule: seq<nat>, k: nat)
    requires |ps| == |ts| == |s.phases| && k <= |schedule| && Run(o, ts, ps, s, schedule[..k]).panicked
    ensures Run(o, ts, ps, s, schedule) == Run(o, ts, ps, s, schedule[..k])
  {
    hide Step;
    assert schedule == schedule[..k] + schedule[k..];
    RunAppend(o, ts, ps, s, schedule[..k], schedule[k..]);
    PanicStays(o, ts, ps, Run(o, ts, ps, s, schedule[..k]), schedule[k..]);
  }
}
