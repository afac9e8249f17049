/**
 The check of a batch: bulk requests in chunks, pairing of publications with timestamp proofs, one result per
 publication, and the bookkeeping of failures and retries.
 */
module Batches {
  import opened Prelude
  import opened Chunks
  import opened Models
  import opened Queues

  // ----- Bulk requests -----

  datatype Item = Item(id: string, address: string, data: string)

  datatype Response = Response(success: seq<Item>, failed: map<string, string>)

  /** Bundlr, by id: the transaction, or the reason why there is none. */
  type Bundlr = string -> Result<Item, string>

  ghost predicate AnswersById(bundlr: Bundlr) {
    forall id :: bundlr(id).Ok? ==> bundlr(id).value.id == id
  }

  function Merge(a: Response, b: Response): Response {
    Response(a.success + b.success, a.failed + b.failed)
  }

  function Single(bundlr: Bundlr, id: string): Response {
    match bundlr(id)
    case Ok(item) => Response([item], map[])
    case Err(reason) => Response([], map[id := reason])
  }

  /** One request for all ids. */
  function Answer(bundlr: Bundlr, ids: seq<string>): Response {
    if ids == [] then Response([], map[]) else Merge(Answer(bundlr, ids[..|ids| - 1]), Single(bundlr, ids[|ids| - 1]))
  }

  /** The responses of the chunks, combined from the left. */
  function Combine(bundlr: Bundlr, chunks: seq<seq<string>>, soFar: Response): Response {
    if chunks == [] then soFar else Combine(bundlr, chunks[1..], Merge(soFar, Answer(bundlr, chunks[0])))
  }

  const BULK_SIZE := 1000

  /** `timesOut` tells for which chunks the request fails, retries included; then the whole call throws. */
  function GetBundlrBulkTxs(bundlr: Bundlr, timesOut: seq<string> -> bool, ids: seq<string>): Option<Response> {
    var chunks := ChunkArray(ids, BULK_SIZE);
    if exists chunk :: chunk in chunks && timesOut(chunk) then None
    else Some(Combine(bundlr, chunks, Response([], map[])))
  }

  lemma MergeAssociative(a: Response, b: Response, c: Response)
    ensures Merge(Merge(a, b), c) == Merge(a, Merge(b, c))
  {
    assert a.success + b.success + c.success == a.success + (b.success + c.success);
    assert a.failed + b.failed + c.failed == a.failed + (b.failed + c.failed);
  }

  lemma {:induction false} AnswerAppend(bundlr: Bundlr, xs: seq<string>, ys: seq<string>)
    ensures Answer(bundlr, xs + ys) == Merge(Answer(bundlr, xs), Answer(bundlr, ys))
    decreases |ys|
  {
    hide Merge;
    if ys == [] {
      assert xs + ys == xs;
      MergeEmpty(Answer(bundlr, xs));
    } else {
      var n := |ys| - 1;
      AnswerAppend(bundlr, xs, ys[..n]);
      assert (xs + ys)[..|xs + ys| - 1] == xs + ys[..n];
      MergeAssociative(Answer(bundlr, xs), Answer(bundlr, ys[..n]), Single(bundlr, ys[n]));
    }
  }

  lemma MergeEmpty(a: Response)
    ensures Merge(a, Response([], map[])) == a
  {
  }

  lemma {:induction false} CombineIsAnswer(bundlr: Bundlr, before: seq<string>, chunks: seq<seq<string>>)
    ensures Combine(bundlr, chunks, Answer(bundlr, before)) == Answer(bundlr, before + Concat(chunks))
    decreases |chunks|
  {
    hide Merge, Answer;
    if chunks == [] {
      assert before + Concat(chunks) == before;
    } else {
      AnswerAppend(bundlr, before, chunks[0]);
      CombineIsAnswer(bundlr, before + chunks[0], chunks[1..]);
      assert before + Concat(chunks) == before + chunks[0] + Concat(chunks[1..]);
    }
  }

  /** Chunking does not show: same successes in the same order, same failures, as one request for everything. */
  lemma {:induction false} ChunkedFetchIsFetch(bundlr: Bundlr, timesOut: seq<string> -> bool, ids: seq<string>)
    ensures GetBundlrBulkTxs(bundlr, timesOut, ids) ==
      if exists chunk :: chunk in ChunkArray(ids, 1000) && timesOut(chunk) then None
      else Some(Answer(bundlr, ids))
  {
    hide ChunkArray, Combine, Answer;
    var chunks := ChunkArray(ids, BULK_SIZE);
    ChunksPartition(ids, BULK_SIZE);
    CombineIsAnswer(bundlr, [], chunks);
    assert [] + Concat(chunks) == ids;
    assert Answer(bundlr, []) == Response([], map[]) by {
      NothingAsked(bundlr);
    }
  }

  lemma {:induction false} NothingAsked(bundlr: Bundlr)
    ensures Answer(bundlr, []) == Response([], map[])
  {
  }

  ghost predicate AllFound(bundlr: Bundlr, ids: seq<string>) {
    forall id :: id in ids ==> bundlr(id).Ok?
  }

  ghost function IdsOf(items: seq<Item>): seq<string> {
    seq(|items|, i requires 0 <= i < |items| => items[i].id)
  }

  /** Every id is either found or reported as failed, never both. */
  lemma {:induction false} AnswerPartition(bundlr: Bundlr, ids: seq<string>)
    requires AnswersById(bundlr)
    ensures var r := Answer(bundlr, ids);
      && (forall item :: item in r.success ==> item.id in ids && bundlr(item.id) == Ok(item))
      && (forall id :: id in ids && bundlr(id).Ok? ==> bundlr(id).value in r.success)
      && (forall id :: id in r.failed <==> id in ids && bundlr(id).Err?)
      && (forall id :: id in r.failed ==> bundlr(id) == Err(r.failed[id]))
  {
    if ids != [] {
      var n := |ids| - 1;
      AnswerPartition(bundlr, ids[..n]);
      assert ids == ids[..n] + [ids[n]];
    }
  }

  /** Found transactions keep their order, and all ids are found exactly if as many come back. */
  lemma {:induction false} AnswerCount(bundlr: Bundlr, ids: seq<string>)
    requires AnswersById(bundlr)
    ensures var found := Answer(bundlr, ids).success;
      && |found| <= |ids|
      && (|found| == |ids| <==> AllFound(bundlr, ids))
      && (AllFound(bundlr, ids) ==> IdsOf(found) == ids)
  {
    if ids != [] {
      var n := |ids| - 1;
      AnswerCount(bundlr, ids[..n]);
      AllFoundSplit(bundlr, ids);
    }
  }

  lemma {:induction false} AllFoundSplit(bundlr: Bundlr, ids: seq<string>)
    requires ids != []
    ensures AllFound(bundlr, ids) <==> AllFound(bundlr, ids[..|ids| - 1]) && bundlr(ids[|ids| - 1]).Ok?
  {
    assert ids == ids[..|ids| - 1] + [ids[|ids| - 1]];
  }

  lemma {:induction false} AnswerKeepsCounts(bundlr: Bundlr, ids: seq<string>)
    requires AnswersById(bundlr)
    ensures multiset(IdsOf(Answer(bundlr, ids).success)) <= multiset(ids)
  {
    if ids != [] {
      var n := |ids| - 1;
      AnswerKeepsCounts(bundlr, ids[..n]);
      assert ids == ids[..n] + [ids[n]];
      var before, single := Answer(bundlr, ids[..n]).success, Single(bundlr, ids[n]).success;
      assert IdsOf(before + single) == IdsOf(before) + IdsOf(single);
      assert IdsOf(single) == if bundlr(ids[n]).Ok? then [ids[n]] else [];
    }
  }

  // ----- Publications and their timestamp proofs -----

  datatype Paired = Paired(publication: Item, stamp: Item)

  /** Paired by position; publications beyond the last proof fall away. */
  function PairUp(stamps: seq<Item>, publications: seq<Item>): seq<Paired>
    requires |stamps| <= |publications|
  {
    seq(|stamps|, i requires 0 <= i < |stamps| => Paired(publications[i], stamps[i]))
  }

  /** `stampOf`: the id of the timestamp transaction in the document. */
  function StampIds(stampOf: Item -> string, publications: seq<Item>): seq<string> {
    seq(|publications|, i requires 0 <= i < |publications| => stampOf(publications[i]))
  }

  /** What goes on to be checked, if no request times out. */
  function BatchPairs(bundlr: Bundlr, stampOf: Item -> string, txIds: seq<string>): seq<Paired>
    requires AnswersById(bundlr)
  {
    var publications := Answer(bundlr, txIds).success;
    var stampIds := StampIds(stampOf, publications);
    AnswerCount(bundlr, stampIds);
    PairUp(Answer(bundlr, stampIds).success, publications)
  }

  ghost predicate MissingOnlyAtEnd(bundlr: Bundlr, ids: seq<string>) {
    forall i, j :: 0 <= i < j < |ids| && bundlr(ids[i]).Err? ==> bundlr(ids[j]).Err?
  }

  lemma {:induction false} AnswerOfPrefix(bundlr: Bundlr, ids: seq<string>, m: nat)
    requires AnswersById(bundlr) && m <= |ids|
    requires AllFound(bundlr, ids[..m]) && forall i :: m <= i < |ids| ==> bundlr(ids[i]).Err?
    ensures IdsOf(Answer(bundlr, ids).success) == ids[..m]
  {
    if m == |ids| {
      assert ids[..m] == ids;
      AnswerCount(bundlr, ids);
    } else {
      var n := |ids| - 1;
      assert ids[..n][..m] == ids[..m];
      AnswerOfPrefix(bundlr, ids[..n], m);
    }
  }

  /** If a found id follows the first missing one, the answer is out of step from there on. */
  lemma {:induction false} GapBreaksStep(bundlr: Bundlr, ids: seq<string>, m: nat, j: nat)
    requires AnswersById(bundlr) && m < j < |ids| && bundlr(ids[m]).Err? && bundlr(ids[j]).Ok?
    requires AllFound(bundlr, ids[..m])
    ensures !(IdsOf(Answer(bundlr, ids).success) <= ids)
  {
    hide Answer, Single;
    var found, rest := Answer(bundlr, ids).success, Answer(bundlr, ids[m..]).success;
    assert found == Answer(bundlr, ids[..m]).success + rest by {
      assert ids == ids[..m] + ids[m..];
      AnswerAppend(bundlr, ids[..m], ids[m..]);
    }
    AnswerCount(bundlr, ids[..m]);
    assert rest != [] by {
      AnswerPartition(bundlr, ids[m..]);
      assert ids[m..][j - m] == ids[j];
    }
    assert found[m] in found;
    AnswerPartition(bundlr, ids);
    assert IdsOf(found)[m] != ids[m];
  }

  /** Position by position, the proofs belong to their publications exactly if only proofs at the end are missing. */
  lemma {:induction false} PairedByIdIff(bundlr: Bundlr, ids: seq<string>)
    requires AnswersById(bundlr)
    ensures IdsOf(Answer(bundlr, ids).success) <= ids <==> MissingOnlyAtEnd(bundlr, ids)
  {
    var m := 0;
    while m < |ids| && bundlr(ids[m]).Ok?
      invariant m <= |ids| && AllFound(bundlr, ids[..m])
      invariant forall i :: 0 <= i < m ==> bundlr(ids[i]).Ok?
    {
      assert ids[..m + 1] == ids[..m] + [ids[m]];
      m := m + 1;
    }
    if MissingOnlyAtEnd(bundlr, ids) {
      AnswerOfPrefix(bundlr, ids, m);
    } else {
      var i, j :| 0 <= i < j < |ids| && bundlr(ids[i]).Err? && bundlr(ids[j]).Ok?;
      GapBreaksStep(bundlr, ids, m, j);
    }
  }

  lemma {:induction false} PairUpIff(stampOf: Item -> string, stamps: seq<Item>, publications: seq<Item>)
    requires |stamps| <= |publications|
    ensures (forall pair :: pair in PairUp(stamps, publications) ==> pair.stamp.id == stampOf(pair.publication))
       <==> IdsOf(stamps) <= StampIds(stampOf, publications)
  {
    var pairs, ids, stampIds := PairUp(stamps, publications), IdsOf(stamps), StampIds(stampOf, publications);
    if forall pair :: pair in pairs ==> pair.stamp.id == stampOf(pair.publication) {
      forall i | 0 <= i < |stamps| ensures ids[i] == stampIds[i] {
        assert pairs[i] in pairs;
      }
    }
    if ids <= stampIds {
      forall i | 0 <= i < |stamps| ensures stamps[i].id == stampOf(publications[i]) {
        assert ids[i] == stampIds[i];
      }
    }
  }

  /** Every publication of the batch meets its own timestamp proofs, exactly if only trailing proofs are missing. */
  lemma {:induction false} PairsCorrectIff(bundlr: Bundlr, stampOf: Item -> string, txIds: seq<string>)
    requires AnswersById(bundlr)
    ensures (forall pair :: pair in BatchPairs(bundlr, stampOf, txIds) ==> pair.stamp.id == stampOf(pair.publication))
       <==> MissingOnlyAtEnd(bundlr, StampIds(stampOf, Answer(bundlr, txIds).success))
  {
    hide Answer, IdsOf, PairUp;
    var publications := Answer(bundlr, txIds).success;
    var stampIds := StampIds(stampOf, publications);
    AnswerCount(bundlr, stampIds);
    PairUpIff(stampOf, Answer(bundlr, stampIds).success, publications);
    PairedByIdIff(bundlr, stampIds);
  }

  /** The ids that get a result: some of the batch, in its order, and all of it exactly if Bundlr knows everything. */
  lemma {:induction false} NothingDroppedIff(bundlr: Bundlr, stampOf: Item -> string, txIds: seq<string>)
    requires AnswersById(bundlr)
    ensures var publications := Answer(bundlr, txIds).success;
      var checked := PublicationIds(BatchPairs(bundlr, stampOf, txIds));
      && checked <= IdsOf(publications)
      && multiset(checked) <= multiset(txIds)
      && (checked == txIds <==> AllFound(bundlr, txIds) && AllFound(bundlr, StampIds(stampOf, publications)))
  {
    var publications := Answer(bundlr, txIds).success;
    var stampIds := StampIds(stampOf, publications);
    var checked := PublicationIds(BatchPairs(bundlr, stampOf, txIds));
    AnswerCount(bundlr, txIds);
    AnswerCount(bundlr, stampIds);
    AnswerKeepsCounts(bundlr, txIds);
    assert checked <= IdsOf(publications);
    assert IdsOf(publications) == checked + IdsOf(publications)[|checked|..];
  }

  ghost function PublicationIds(pairs: seq<Paired>): seq<string> {
    seq(|pairs|, i requires 0 <= i < |pairs| => pairs[i].publication.id)
  }

  // ----- Results -----

  datatype ProofResult = ProofResult(txId: string, error: Option<ValidatorError>)

  datatype FailedProof = FailedProof(txId: string, reason: ValidatorError, submitter: string)

  /** The proof check; none if it throws or takes longer than five seconds. */
  type Checker = Paired -> Option<Result<(), ValidatorError>>

  function ProcessPublication(check: Checker, pair: Paired): ProofResult {
    match check(pair)
    case None => ProofResult(pair.publication.id, Some(Unknown))
    case Some(Ok(_)) => ProofResult(pair.publication.id, None)
    case Some(Err(e)) => ProofResult(pair.publication.id, Some(e))
  }

  /** What a completed check adds to the failed queue; the submitter is that of the timestamp proofs. */
  function Failure(check: Checker, pairs: seq<Paired>, k: nat): seq<FailedProof> {
    if k < |pairs| && ProcessPublication(check, pairs[k]).error.Some? then
      [FailedProof(pairs[k].publication.id, ProcessPublication(check, pairs[k]).error.value, pairs[k].stamp.address)]
    else []
  }

  /** The failures, for checks that complete in the given order. */
  function Failures(check: Checker, pairs: seq<Paired>, order: seq<nat>): seq<FailedProof> {
    if order == [] then []
    else Failures(check, pairs, order[..|order| - 1]) + Failure(check, pairs, order[|order| - 1])
  }

  lemma {:induction false} FailuresAppend(check: Checker, pairs: seq<Paired>, a: seq<nat>, b: seq<nat>)
    ensures Failures(check, pairs, a + b) == Failures(check, pairs, a) + Failures(check, pairs, b)
    decreases |b|
  {
    if b == [] {
      assert a + b == a;
    } else {
      var n := |b| - 1;
      assert (a + b)[..|a + b| - 1] == a + b[..n];
      FailuresAppend(check, pairs, a, b[..n]);
    }
  }

  /** The order in which checks complete changes only the order of the failures. */
  lemma {:induction false} FailuresPermute(check: Checker, pairs: seq<Paired>, a: seq<nat>, b: seq<nat>)
    requires multiset(a) == multiset(b)
    ensures multiset(Failures(check, pairs, a)) == multiset(Failures(check, pairs, b))
    decreases |a|
  {
    if a == [] {
      assert |multiset(b)| == 0;
    } else {
      var n := |a| - 1;
      var x := a[n];
      assert a == a[..n] + [x];
      assert x in multiset(b);
      var i :| 0 <= i < |b| && b[i] == x;
      var head, tail := b[..i], b[i + 1..];
      assert b == head + [x] + tail;
      assert multiset(head + tail) == multiset(b) - multiset{x};
      FailuresPermute(check, pairs, a[..n], head + tail);
      FailuresAppend(check, pairs, head, tail);
      FailuresAppend(check, pairs, head, [x]);
      FailuresAppend(check, pairs, head + [x], tail);
      FailuresAppend(check, pairs, a[..n], [x]);
    }
  }

  ghost function Indices(n: nat): seq<nat> {
    seq(n, i => i)
  }

  /** The indices of the publications in the order in which their checks complete. */
  ghost predicate CompletionOrder(order: seq<nat>, n: nat) {
    multiset(order) == multiset(Indices(n))
  }

  lemma OrderCovers(order: seq<nat>, n: nat)
    requires CompletionOrder(order, n)
    ensures forall m :: 0 <= m < |order| ==> order[m] < n
    ensures forall i :: 0 <= i < n ==> i in order
  {
    forall m | 0 <= m < |order| ensures order[m] < n {
      assert order[m] in multiset(order);
      assert order[m] in multiset(Indices(n));
    }
    forall i | 0 <= i < n ensures i in order {
      assert Indices(n)[i] == i;
      assert i in multiset(order);
    }
  }

  /**
   One result per publication, in the order of the publications; one failure entry per failed result, in the
   order of completion.
   */
  method ProcessPublications(failed: Queue<FailedProof>, check: Checker, pairs: seq<Paired>, order: seq<nat>)
    returns (results: seq<ProofResult>)
    requires CompletionOrder(order, |pairs|)
    modifies failed
    ensures |results| == |pairs|
    ensures forall i :: 0 <= i < |pairs| ==> results[i] == ProcessPublication(check, pairs[i])
    ensures failed.items == old(failed.items) + Failures(check, pairs, order)
  {
    OrderCovers(order, |pairs|);
    hide CompletionOrder;
    hide ProcessPublication, Failure;
    results := seq(|pairs|, i requires 0 <= i < |pairs| => ProofResult("", None));
    for n := 0 to |order|
      invariant |results| == |pairs|
      invariant forall m :: 0 <= m < n ==> results[order[m]] == ProcessPublication(check, pairs[order[m]])
      invariant failed.items == old(failed.items) + Failures(check, pairs, order[..n])
    {
      var k := order[n];
      assert order[..n + 1][..n] == order[..n];
      var result := CheckPublication(failed, check, pairs, k);
      results := results[k := result];
    }
    assert order[..|order|] == order;
    forall i | 0 <= i < |pairs| ensures results[i] == ProcessPublication(check, pairs[i]) {
      assert i in order;
      var m :| 0 <= m < |order| && order[m] == i;
    }
  }

  method CheckPublication(failed: Queue<FailedProof>, check: Checker, pairs: seq<Paired>, k: nat)
    returns (result: ProofResult)
    requires k < |pairs|
    modifies failed
    ensures result == ProcessPublication(check, pairs[k])
    ensures failed.items == old(failed.items) + Failure(check, pairs, k)
  {
    result := ProcessPublication(check, pairs[k]);
    if result.error.Some? {
      failed.Enqueue(FailedProof(result.txId, result.error.value, pairs[k].stamp.address));
    }
  }

  /** In whatever order the checks complete, the failed queue gains the failures of the publications, each once. */
  lemma {:induction false} FailuresAreThoseOfThePublications(check: Checker, pairs: seq<Paired>, order: seq<nat>)
    requires CompletionOrder(order, |pairs|)
    ensures multiset(Failures(check, pairs, order)) == multiset(FailuresOf(check, pairs))
  {
    FailuresPermute(check, pairs, order, Indices(|pairs|));
  }

  /** The failures in the order of the publications. */
  ghost function FailuresOf(check: Checker, pairs: seq<Paired>): seq<FailedProof> {
    Failures(check, pairs, Indices(|pairs|))
  }

  /** The entry is that of a check that threw or took too long, or of one that failed with this reason. */
  predicate FailedAs(check: Checker, pair: Paired, entry: FailedProof) {
    && entry.txId == pair.publication.id && entry.submitter == pair.stamp.address
    && match check(pair)
       case None => entry.reason.Unknown?
       case Some(Ok(_)) => false
       case Some(Err(e)) => entry.reason == e
  }

  /** The first `n` publications that fail so. */
  ghost function FailedWith(check: Checker, pairs: seq<Paired>, n: nat, entry: FailedProof): set<nat>
    requires n <= |pairs|
  {
    set i: nat | i < n && FailedAs(check, pairs[i], entry)
  }

  /** However the checks complete, an entry is in the failed queue once for each publication that fails so. */
  lemma {:induction false} FailureEntries(check: Checker, pairs: seq<Paired>, order: seq<nat>, entry: FailedProof)
    requires CompletionOrder(order, |pairs|)
    ensures multiset(Failures(check, pairs, order))[entry] == |FailedWith(check, pairs, |pairs|, entry)|
  {
    FailuresAreThoseOfThePublications(check, pairs, order);
    FirstFailures(check, pairs, |pairs|, entry);
  }

  lemma {:induction false} FirstFailures(check: Checker, pairs: seq<Paired>, n: nat, entry: FailedProof)
    requires n <= |pairs|
    ensures multiset(Failures(check, pairs, Indices(n)))[entry] == |FailedWith(check, pairs, n, entry)|
  {
    hide FailedAs, FailedWith, Failure;
    if n == 0 {
      FailedWithOneMore(check, pairs, 0, entry);
    } else {
      FirstFailures(check, pairs, n - 1, entry);
      FailedWithOneMore(check, pairs, n, entry);
      FailureIsEntry(check, pairs, n - 1, entry);
      assert Indices(n)[..n - 1] == Indices(n - 1);
    }
  }

  lemma {:induction false} FailedWithOneMore(check: Checker, pairs: seq<Paired>, n: nat, entry: FailedProof)
    requires n <= |pairs|
    ensures |FailedWith(check, pairs, n, entry)| ==
      if n == 0 then 0
      else |FailedWith(check, pairs, n - 1, entry)| + if FailedAs(check, pairs[n - 1], entry) then 1 else 0
  {
    hide FailedAs;
    if n > 0 {
      var one: set<nat> := if FailedAs(check, pairs[n - 1], entry) then {n - 1} else {};
      assert FailedWith(check, pairs, n, entry) == FailedWith(check, pairs, n - 1, entry) + one;
    }
  }

  lemma {:induction false} FailureIsEntry(check: Checker, pairs: seq<Paired>, k: nat, entry: FailedProof)
    requires k < |pairs|
    ensures multiset(Failure(check, pairs, k))[entry] == if FailedAs(check, pairs[k], entry) then 1 else 0
  {
  }

  // ----- Retries -----

  predicate Retried(r: ProofResult) {
    r.error.Some? && ShouldRetry(r.error.value)
  }

  function RetryIds(results: seq<ProofResult>): seq<string> {
    if results == [] then []
    else RetryIds(results[..|results| - 1]) +
         (if Retried(results[|results| - 1]) then [results[|results| - 1].txId] else [])
  }

  /** The ids whose verdict is final. */
  function FinalIds(results: seq<ProofResult>): seq<string> {
    if results == [] then []
    else FinalIds(results[..|results| - 1]) +
         (if Retried(results[|results| - 1]) then [] else [results[|results| - 1].txId])
  }

  function ResultIds(results: seq<ProofResult>): seq<string> {
    seq(|results|, i requires 0 <= i < |results| => results[i].txId)
  }

  /** Every result is final or retried, and counted as such. */
  lemma {:induction false} ResultsPartition(results: seq<ProofResult>)
    ensures multiset(FinalIds(results)) + multiset(RetryIds(results)) == multiset(ResultIds(results))
    ensures |FinalIds(results)| == |results| - |RetryIds(results)|
  {
    if results != [] {
      var n := |results| - 1;
      ResultsPartition(results[..n]);
      assert ResultIds(results) == ResultIds(results[..n]) + [results[n].txId];
    }
  }

  /** The check of this transaction failed with one of the five temporary errors. */
  predicate FailedTemporarily(r: ProofResult) {
    r.error.Some? && Temporary(r.error.value)
  }

  /** Results are sorted one by one, in their order: those with a temporary error are retried, all others final. */
  lemma {:induction false} SortedOneByOne(results: seq<ProofResult>, r: ProofResult)
    ensures RetryIds(results + [r]) == RetryIds(results) + if FailedTemporarily(r) then [r.txId] else []
    ensures FinalIds(results + [r]) == FinalIds(results) + if FailedTemporarily(r) then [] else [r.txId]
  {
    if r.error.Some? {
      RetriedErrors(r.error.value);
    }
    assert (results + [r])[..|results|] == results;
  }

  /** The retried ids are exactly those whose check failed with a temporary error. */
  lemma {:induction false} RetryIdsOf(results: seq<ProofResult>, id: string)
    ensures id in RetryIds(results) <==> exists r :: r in results && r.txId == id && FailedTemporarily(r)
  {
    if results != [] {
      var n := |results| - 1;
      RetryIdsOf(results[..n], id);
      SortedOneByOne(results[..n], results[n]);
      assert results == results[..n] + [results[n]];
    }
  }

  // ----- The whole batch -----

  ghost predicate RequestsThrow(timesOut: seq<string> -> bool, ids: seq<string>) {
    exists chunk :: chunk in ChunkArray(ids, 1000) && timesOut(chunk)
  }

  lemma {:induction false} ResultsAreOfTheBatch(bundlr: Bundlr, stampOf: Item -> string, check: Checker,
                                                txIds: seq<string>,
                             results: seq<ProofResult>)
    requires AnswersById(bundlr)
    requires var pairs := BatchPairs(bundlr, stampOf, txIds);
      |results| == |pairs| && forall i :: 0 <= i < |pairs| ==> results[i] == ProcessPublication(check, pairs[i])
    ensures ResultIds(results) <= IdsOf(Answer(bundlr, txIds).success)
    ensures multiset(ResultIds(results)) <= multiset(txIds)
  {
    hide Answer, IdsOf, BatchPairs;
    assert ResultIds(results) == PublicationIds(BatchPairs(bundlr, stampOf, txIds));
    NothingDroppedIff(bundlr, stampOf, txIds);
  }

  /** The check threw, took too long, or failed with a temporary error. */
  ghost predicate WorthRetry(check: Checker, pair: Paired) {
    check(pair).None? || (check(pair).value.Err? && Temporary(check(pair).value.error))
  }

  /** The publication was paired, and its check succeeded in time. */
  ghost predicate Passes(check: Checker, pairs: seq<Paired>, id: string) {
    exists pair :: pair in pairs && pair.publication.id == id && check(pair).Some? && check(pair).value.Ok?
  }

  /** One result per pair, each that of the check of its pair. */
  ghost predicate ResultsOf(check: Checker, pairs: seq<Paired>, results: seq<ProofResult>) {
    |results| == |pairs| && forall i :: 0 <= i < |pairs| ==> results[i] == ProcessPublication(check, pairs[i])
  }

  lemma {:induction false} RetriedIff(check: Checker, pairs: seq<Paired>, results: seq<ProofResult>, id: string)
    requires ResultsOf(check, pairs, results)
    ensures id in RetryIds(results) <==>
      exists pair :: pair in pairs && pair.publication.id == id && WorthRetry(check, pair)
  {
    RetryIdsOf(results, id);
    if r :| r in results && r.txId == id && FailedTemporarily(r) {
      var i :| 0 <= i < |results| && results[i] == r;
      assert pairs[i] in pairs && WorthRetry(check, pairs[i]);
    }
    if pair :| pair in pairs && pair.publication.id == id && WorthRetry(check, pair) {
      var i :| 0 <= i < |pairs| && pairs[i] == pair;
      assert results[i] in results && FailedTemporarily(results[i]);
    }
  }

  lemma {:induction false} PassesIff(check: Checker, pairs: seq<Paired>, results: seq<ProofResult>, id: string)
    requires ResultsOf(check, pairs, results)
    ensures ProofResult(id, None) in results <==> Passes(check, pairs, id)
  {
    if ProofResult(id, None) in results {
      var i :| 0 <= i < |results| && results[i] == ProofResult(id, None);
      assert pairs[i] in pairs;
    }
    if pair :| pair in pairs && pair.publication.id == id && check(pair).Some? && check(pair).value.Ok? {
      var i :| 0 <= i < |pairs| && pairs[i] == pair;
      assert results[i] in results;
    }
  }

  /**
   `order` gives the order of completion for each number of publications. The call throws exactly if a request
   for publications or for timestamp proofs does; otherwise the found publications with a proof get their
   results, in the order of the batch.
   */
  method CheckDAProofsBatch(failed: Queue<FailedProof>, bundlr: Bundlr, timesOut: seq<string> -> bool,
                            stampOf: Item -> string, check: Checker, order: nat -> seq<nat>, txIds: seq<string>)
    returns (r: Option<seq<ProofResult>>)
    requires AnswersById(bundlr)
    requires forall n :: CompletionOrder(order(n), n)
    modifies failed
    ensures r.None? <==> RequestsThrow(timesOut, txIds) ||
                         RequestsThrow(timesOut, StampIds(stampOf, Answer(bundlr, txIds).success))
    ensures r.None? ==> failed.items == old(failed.items)
    ensures r.Some? ==>
      var pairs := BatchPairs(bundlr, stampOf, txIds);
      && |r.value| == |pairs|
      && (forall i :: 0 <= i < |pairs| ==> r.value[i] == ProcessPublication(check, pairs[i]))
      && multiset(ResultIds(r.value)) <= multiset(txIds)
      && failed.items == old(failed.items) + Failures(check, pairs, order(|pairs|))
    ensures r.Some? ==>
      var pairs := BatchPairs(bundlr, stampOf, txIds);
      forall id ::
        && (ProofResult(id, None) in r.value <==> Passes(check, pairs, id))
        && (id in RetryIds(r.value) <==>
              exists pair :: pair in pairs && pair.publication.id == id && WorthRetry(check, pair))
  {
    hide Answer, ChunkArray, Combine, Failures, CompletionOrder, PairUp;
    ChunkedFetchIsFetch(bundlr, timesOut, txIds);
    var publications := GetBundlrBulkTxs(bundlr, timesOut, txIds);
    if publications.None? {
      return None;
    }
    var stampIds := StampIds(stampOf, publications.value.success);
    ChunkedFetchIsFetch(bundlr, timesOut, stampIds);
    var stamps := GetBundlrBulkTxs(bundlr, timesOut, stampIds);
    if stamps.None? {
      return None;
    }
    AnswerCount(bundlr, stampIds);
    var pairs := PairUp(stamps.value.success, publications.value.success);
    var results := ProcessPublications(failed, check, pairs, order(|pairs|));
    ResultsAreOfTheBatch(bundlr, stampOf, check, txIds, results);
    forall id {
      RetriedIff(check, pairs, results, id);
    }
    forall id {
      PassesIff(check, pairs, results, id);
    }
    r := Some(results);
  }
}
