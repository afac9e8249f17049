/**
 The watcher: it pages through the transaction log, has every page checked, and remembers how far it came.

 An iteration is one pass of the main loop. Bundlr's log only grows, so all pages served during a run are slices
 of the log at the end of the run, which is the `log` below.
 */
module Watchers {
  import opened Prelude
  import opened Batches

  datatype Edge = Edge(id: string, cursor: string)

  datatype Page = Page(edges: seq<Edge>, endCursor: Option<string>)

  /** The answer to the request with this number and this cursor; none if the request throws. */
  type Serve = (nat, Option<string>) -> Option<Page>

  datatype Bulk = Bulk(next: Option<string>, txIds: seq<string>)

  const MAX_PULLING := 10

  function Ids(edges: seq<Edge>): seq<string> {
    seq(|edges|, i requires 0 <= i < |edges| => edges[i].id)
  }

  /** Neither null nor the empty string. */
  predicate Truthy(cursor: Option<string>) {
    cursor.GetOr("") != ""
  }

  // ----- Paging -----

  /** The pages from pull number `k` on. */
  function Pull(serve: Serve, soFar: Bulk, k: nat, maxPulling: nat): Option<Bulk>
    decreases maxPulling - k
  {
    match serve(k, soFar.next)
    case None => None
    case Some(page) =>
      if page.edges == [] then Some(soFar)
      else
        var bulk := Bulk(page.endCursor, soFar.txIds + Ids(page.edges));
        if Truthy(bulk.next) && k + 1 < maxPulling then Pull(serve, bulk, k + 1, maxPulling) else Some(bulk)
  }

  function IdsOfPages(pages: seq<Page>): seq<string> {
    if pages == [] then [] else IdsOfPages(pages[..|pages| - 1]) + Ids(pages[|pages| - 1].edges)
  }

  function CursorAfter(cursor: Option<string>, pages: seq<Page>): Option<string> {
    if pages == [] then cursor else pages[|pages| - 1].endCursor
  }

  ghost predicate HasMore(cursor: Option<string>) {
    cursor.Some? && cursor.value != ""
  }

  lemma TruthyIff(cursor: Option<string>)
    ensures Truthy(cursor) <==> HasMore(cursor)
  {
  }

  /** Consecutive answers, each to the cursor of the one before, none of them empty, and all but the last with a cursor. */
  ghost predicate Consecutive(serve: Serve, cursor: Option<string>, pages: seq<Page>) {
    pages == [] ||
    var n := |pages| - 1;
    && Consecutive(serve, cursor, pages[..n])
    && serve(n, CursorAfter(cursor, pages[..n])) == Some(pages[n]) && pages[n].edges != []
    && (n > 0 ==> HasMore(pages[n - 1].endCursor))
  }

  /** Why there is no further pull: the bound, the end of the cursors, or an empty page. */
  ghost predicate Stops(serve: Serve, cursor: Option<string>, pages: seq<Page>, maxPulling: nat) {
    var next := CursorAfter(cursor, pages);
    || (pages != [] && (|pages| >= maxPulling || !HasMore(next)))
    || (serve(|pages|, next).Some? && serve(|pages|, next).value.edges == [])
  }

  lemma {:induction false} OneMorePage(serve: Serve, cursor: Option<string>, pages: seq<Page>, page: Page)
    requires Consecutive(serve, cursor, pages) && page.edges != []
    requires serve(|pages|, CursorAfter(cursor, pages)) == Some(page)
    requires pages == [] || HasMore(CursorAfter(cursor, pages))
    ensures Consecutive(serve, cursor, pages + [page])
  {
    assert (pages + [page])[..|pages|] == pages;
  }

  lemma IdsOfOneMore(pages: seq<Page>, page: Page)
    ensures IdsOfPages(pages + [page]) == IdsOfPages(pages) + Ids(page.edges)
    ensures forall cursor :: CursorAfter(cursor, pages + [page]) == page.endCursor
  {
    var more := pages + [page];
    assert more[..|more| - 1] == pages;
  }

  lemma PullUnfolds(serve: Serve, soFar: Bulk, k: nat, maxPulling: nat)
    ensures Pull(serve, soFar, k, maxPulling) ==
      match serve(k, soFar.next)
      case None => None
      case Some(page) =>
        if page.edges == [] then Some(soFar)
        else if Truthy(page.endCursor) && k + 1 < maxPulling then
          Pull(serve, Bulk(page.endCursor, soFar.txIds + Ids(page.edges)), k + 1, maxPulling)
        else Some(Bulk(page.endCursor, soFar.txIds + Ids(page.edges)))
  {
  }

  ghost predicate PulledPages(serve: Serve, cursor: Option<string>, pages: seq<Page>, maxPulling: nat,
                              r: Option<Bulk>) {
    && Consecutive(serve, cursor, pages) && |pages| <= (if maxPulling == 0 then 1 else maxPulling)
    && (r.Some? ==>
          r.value == Bulk(CursorAfter(cursor, pages), IdsOfPages(pages)) && Stops(serve, cursor, pages, maxPulling))
    && (r.None? ==> serve(|pages|, CursorAfter(cursor, pages)).None?)
  }

  lemma {:induction false} PullPages(serve: Serve, cursor: Option<string>, pages: seq<Page>, maxPulling: nat)
    returns (all: seq<Page>)
    requires Consecutive(serve, cursor, pages)
    requires pages == [] || (|pages| < maxPulling && HasMore(CursorAfter(cursor, pages)))
    ensures PulledPages(serve, cursor, all, maxPulling,
                        Pull(serve, Bulk(CursorAfter(cursor, pages), IdsOfPages(pages)), |pages|, maxPulling))
    decreases maxPulling - |pages|
  {
    hide Consecutive, Ids, IdsOfPages, Pull, Truthy, HasMore, CursorAfter;
    all := pages;
    PullUnfolds(serve, Bulk(CursorAfter(cursor, pages), IdsOfPages(pages)), |pages|, maxPulling);
    var response := serve(|pages|, CursorAfter(cursor, pages));
    if response.Some? && response.value.edges != [] {
      var page := response.value;
      OneMorePage(serve, cursor, pages, page);
      IdsOfOneMore(pages, page);
      TruthyIff(page.endCursor);
      all := pages + [page];
      if Truthy(page.endCursor) && |pages| + 1 < maxPulling {
        all := PullPages(serve, cursor, all, maxPulling);
      }
    }
  }

  /** `pages` are the pages pulled: at most `maxPulling`, but the first is always asked for. */
  method GetBulk(serve: Serve, endCursor: Option<string>, maxPulling: nat)
    returns (r: Option<Bulk>, ghost pages: seq<Page>)
    ensures r == Pull(serve, Bulk(endCursor, []), 0, maxPulling)
    ensures PulledPages(serve, endCursor, pages, maxPulling, r)
  {
    pages := PullPages(serve, endCursor, [], maxPulling);
    hide PulledPages;
    var next, txIds, pullingCounter, more := endCursor, [], 0, true;
    while more
      invariant more ==> pullingCounter == 0 || pullingCounter < maxPulling
      invariant Pull(serve, Bulk(endCursor, []), 0, maxPulling) ==
        if more then Pull(serve, Bulk(next, txIds), pullingCounter, maxPulling) else Some(Bulk(next, txIds))
      decreases if more then 1 + maxPulling - pullingCounter else 0
    {
      var response := serve(pullingCounter, next);
      if response.None? {
        return None, pages;
      }
      var page := response.value;
      if page.edges == [] {
        more := false;
      } else {
        next := page.endCursor;
        txIds := txIds + Ids(page.edges);
        pullingCounter := pullingCounter + 1;
        more := Truthy(next) && pullingCounter < maxPulling;
      }
    }
    r := Some(Bulk(next, txIds));
  }

  /** The cursor after the first `p` transactions. */
  ghost function CursorAt(log: seq<Edge>, p: nat): Option<string>
    requires p <= |log|
  {
    if p == 0 then None else Some(log[p - 1].cursor)
  }

  /** Every page is a slice of the log right after the cursor and carries the cursor of its last edge. */
  ghost predicate Honest(serve: Serve, log: seq<Edge>) {
    forall k: nat, p: nat :: p <= |log| && serve(k, CursorAt(log, p)).Some? ==>
      PageAt(serve(k, CursorAt(log, p)).value, log, p)
  }

  ghost predicate PageAt(page: Page, log: seq<Edge>, p: nat) {
    && p + |page.edges| <= |log|
    && page.edges == log[p..p + |page.edges|]
    && (page.edges != [] ==> page.endCursor == CursorAt(log, p + |page.edges|))
  }

  lemma IdsJoin(log: seq<Edge>, p: nat, q: nat, r: nat)
    requires p <= q <= r <= |log|
    ensures Ids(log[p..q]) + Ids(log[q..r]) == Ids(log[p..r])
  {
  }

  /** What is pulled is the slice of the log between the cursor before and the cursor after. */
  lemma {:induction false} PullIsSlice(serve: Serve, log: seq<Edge>, start: nat, p: nat, k: nat, maxPulling: nat)
    returns (end: nat)
    requires start <= p <= |log| && Honest(serve, log)
    ensures p <= end <= |log|
    ensures var r := Pull(serve, Bulk(CursorAt(log, p), Ids(log[start..p])), k, maxPulling);
      r.Some? ==> r.value == Bulk(CursorAt(log, end), Ids(log[start..end]))
    decreases maxPulling - k
  {
    end := p;
    var response := serve(k, CursorAt(log, p));
    if response.Some? && response.value.edges != [] {
      var page := response.value;
      assert PageAt(page, log, p);
      end := p + |page.edges|;
      IdsJoin(log, start, p, end);
      if Truthy(CursorAt(log, end)) && k + 1 < maxPulling {
        end := PullIsSlice(serve, log, start, end, k + 1, maxPulling);
      }
    }
  }

  // ----- The main loop -----

  datatype Iteration =
    | CheckThrows(serve: Serve)
    | Checks(serve: Serve, results: seq<ProofResult>, cursorSaved: bool, countSaved: bool)

  /** What happened in a run; the program does not keep it. */
  datatype History = History(
    checked: seq<string>,           // the batches that were checked, one after the other
    finals: seq<string>,            // ids with a final verdict
    dropped: multiset<string>       // ids without any result
  )

  const NO_HISTORY := History([], [], multiset{})

  function Extend(h: History, txIds: seq<string>, results: seq<ProofResult>): History {
    History(h.checked + txIds, h.finals + FinalIds(results),
            h.dropped + (multiset(txIds) - multiset(ResultIds(results))))
  }

  datatype State = State(
    cursor: Option<string>,
    total: nat,
    savedCursor: Option<string>,
    savedCount: nat,
    retries: seq<seq<string>>,      // all batches handed to the retry queue
    history: History
  )

  /** At startup the watcher jumps to the newest transaction (if there is one), unless it is to resync. */
  function Startup(savedCursor: Option<string>, savedCount: nat, resync: bool, newest: Page): State {
    var cursor := if resync then savedCursor else if newest.edges != [] then newest.endCursor else None;
    var total := if !resync && newest.edges != [] then 0 else savedCount;
    State(cursor, total, savedCursor, savedCount, [], NO_HISTORY)
  }

  /** The batch of an iteration; none if it throws, finds nothing, or the check throws. */
  function BatchOf(s: State, it: Iteration): Option<Bulk> {
    var bulk := Pull(it.serve, Bulk(s.cursor, []), 0, MAX_PULLING);
    if bulk.None? || bulk.value.txIds == [] || it.CheckThrows? then None else bulk
  }

  /** A batch was checked. The two saves are independent, and the state in memory stands if one fails. */
  function Advance(s: State, bulk: Bulk, results: seq<ProofResult>, cursorSaved: bool, countSaved: bool): State {
    var retried, total := RetryIds(results), s.total + Final(results);
    State(
      bulk.next, total,
      if cursorSaved && bulk.next.Some? then bulk.next else s.savedCursor,
      if countSaved then s.savedCount + total else s.savedCount,
      s.retries + (if retried != [] then [retried] else []),
      Extend(s.history, bulk.txIds, results)
    )
  }

  function Next(s: State, it: Iteration): State {
    if BatchOf(s, it).None? then s
    else Advance(s, BatchOf(s, it).value, it.results, it.cursorSaved, it.countSaved)
  }

  /** How many verdicts are final. */
  function Final(results: seq<ProofResult>): nat {
    RetryIdsAreFew(results);
    |results| - |RetryIds(results)|
  }

  /** A batch is what at most ten consecutive pages hold, from the cursor on. */
  lemma {:induction false} BatchIsOfPages(s: State, it: Iteration) returns (pages: seq<Page>)
    requires BatchOf(s, it).Some?
    ensures PulledPages(it.serve, s.cursor, pages, 10, BatchOf(s, it)) && IdsOfPages(pages) != []
  {
    pages := PullPages(it.serve, s.cursor, [], MAX_PULLING);
  }

  lemma {:induction false} RetryIdsAreFew(results: seq<ProofResult>)
    ensures |RetryIds(results)| <= |results|
  {
    if results != [] {
      RetryIdsAreFew(results[..|results| - 1]);
    }
  }

  function Run(s: State, its: seq<Iteration>): State
    decreases |its|
  {
    if its == [] then s else Run(Next(s, its[0]), its[1..])
  }

  /** The pages come from the log, and the results are about transactions of the batch. */
  ghost predicate Legal(log: seq<Edge>, s: State, it: Iteration) {
    && Honest(it.serve, log)
    && (BatchOf(s, it).Some? ==> multiset(ResultIds(it.results)) <= multiset(BatchOf(s, it).value.txIds))
  }

  ghost predicate LegalRun(log: seq<Edge>, s: State, its: seq<Iteration>)
    decreases |its|
  {
    its == [] || (Legal(log, s, its[0]) && LegalRun(log, Next(s, its[0]), its[1..]))
  }

  /** How the state after a run that began at place `start` relates to the place `p` it has reached. */
  ghost predicate Reached(log: seq<Edge>, first: State, start: nat, s: State, p: nat) {
    && start <= p <= |log|
    && s.cursor == CursorAt(log, p)
    && s.history.checked == Ids(log[start..p])
    && (s.savedCursor == first.savedCursor || exists q :: start <= q <= p && s.savedCursor == CursorAt(log, q))
    && s.total == first.total + |s.history.finals|
    && Accounted(s.history, s.retries)
  }

  ghost predicate Accounted(h: History, retries: seq<seq<string>>) {
    multiset(h.checked) == multiset(h.finals) + Flat(retries) + h.dropped
  }

  /** A checked batch splits into final, retried and dropped transactions. */
  lemma ExtendAccounts(h: History, retries: seq<seq<string>>, txIds: seq<string>, results: seq<ProofResult>)
    requires Accounted(h, retries) && multiset(ResultIds(results)) <= multiset(txIds)
    ensures Accounted(Extend(h, txIds, results), retries + [RetryIds(results)])
    ensures RetryIds(results) == [] ==> Accounted(Extend(h, txIds, results), retries)
    ensures |Extend(h, txIds, results).finals| == |h.finals| + Final(results)
  {
    hide Flat, FinalIds, RetryIds, ResultIds;
    ResultsPartition(results);
    FlatSnoc(retries, RetryIds(results));
    var ids, finals, retried := multiset(txIds), multiset(FinalIds(results)), multiset(RetryIds(results));
    assert ids == finals + retried + (ids - multiset(ResultIds(results)));
  }

  lemma {:induction false} NextReaches(log: seq<Edge>, first: State, start: nat, s: State, p: nat,
                                       it: Iteration) returns (end: nat)
    requires Reached(log, first, start, s, p) && Legal(log, s, it)
    ensures Reached(log, first, start, Next(s, it), end) && p <= end
    ensures BatchOf(s, it).None? ==> end == p && Next(s, it) == s
  {
    hide Accounted, Flat, RetryIds, Final;
    end := p;
    if BatchOf(s, it).Some? {
      assert Ids(log[p..p]) == [];
      end := PullIsSlice(it.serve, log, p, p, 0, MAX_PULLING);
      IdsJoin(log, start, p, end);
      ExtendAccounts(s.history, s.retries, BatchOf(s, it).value.txIds, it.results);
      assert s.retries + [] == s.retries;
    }
  }

  /**
   Over every run: the checked batches are exactly the slice of the log from the first cursor to the current one,
   the saved cursor is never ahead of it, and every transaction of the slice has a final verdict, is with the
   retry queue, or was dropped because Bundlr did not have it.
   */
  lemma {:induction false} RunReaches(log: seq<Edge>, first: State, start: nat, s: State, p: nat, its: seq<Iteration>)
    returns (end: nat)
    requires Reached(log, first, start, s, p) && LegalRun(log, s, its)
    ensures Reached(log, first, start, Run(s, its), end) && p <= end
    decreases |its|
  {
    end := p;
    if its != [] {
      end := NextReaches(log, first, start, s, p, its[0]);
      end := RunReaches(log, first, start, Next(s, its[0]), end, its[1..]);
    }
  }

  /** No empty batch is ever handed to the retry queue. */
  lemma {:induction false} NoEmptyRetry(s: State, its: seq<Iteration>)
    requires [] !in s.retries
    ensures [] !in Run(s, its).retries && s.retries <= Run(s, its).retries
    decreases |its|
  {
    hide Final, Pull;
    if its != [] {
      NoEmptyRetry(Next(s, its[0]), its[1..]);
    }
  }

  /** From startup: a resync goes on at the saved cursor, any other start skips what is already in the log. */
  lemma StartupReaches(log: seq<Edge>, savedAt: nat, savedCount: nat, resync: bool, newest: Page, length: nat)
    returns (start: nat)
    requires savedAt <= |log| && length <= |log|
    requires newest == if length == 0 then Page([], None) else Page([log[length - 1]], CursorAt(log, length))
    ensures start == if resync then savedAt else length
    ensures var s := Startup(CursorAt(log, savedAt), savedCount, resync, newest);
      && Reached(log, s, start, s, start)
      && s.total == (if resync || length == 0 then savedCount else 0)
      && s.savedCursor == CursorAt(log, savedAt) && s.savedCount == savedCount
  {
    start := if resync then savedAt else length;
    assert Ids(log[start..start]) == [];
  }

  // ----- The saved cursor -----

  /** The iteration with this number checks a batch. */
  ghost predicate ChecksAt(s: State, its: seq<Iteration>, k: nat)
    requires k < |its|
  {
    BatchOf(Run(s, its[..k]), its[k]).Some?
  }

  /** It also saves the cursor the batch ended with. */
  ghost predicate SavesAt(s: State, its: seq<Iteration>, k: nat)
    requires k < |its|
  {
    ChecksAt(s, its, k) && its[k].cursorSaved && BatchOf(Run(s, its[..k]), its[k]).value.next.Some?
  }

  ghost predicate LastSave(s: State, its: seq<Iteration>, k: nat)
    requires k < |its|
  {
    SavesAt(s, its, k) && forall j :: k < j < |its| ==> !SavesAt(s, its, j)
  }

  lemma {:induction false} RunSnoc(s: State, its: seq<Iteration>)
    requires its != []
    ensures Run(s, its) == Next(Run(s, its[..|its| - 1]), its[|its| - 1])
    decreases |its|
  {
    hide Next;
    var n := |its| - 1;
    if n == 0 {
      assert its[1..] == [] && its[..0] == [];
    } else {
      RunSnoc(Next(s, its[0]), its[1..]);
      assert its[..n][1..] == its[1..][..n - 1];
    }
  }

  /**
   Over every run: the saved cursor is the cursor in memory right after the last iteration that saved it, or the
   one saved before the run if there is none.
   */
  lemma {:induction false} SavedCursorIsThatOfLastSave(s: State, its: seq<Iteration>)
    ensures (forall k: nat :: k < |its| ==> !SavesAt(s, its, k)) ==> Run(s, its).savedCursor == s.savedCursor
    ensures forall k: nat :: k < |its| && LastSave(s, its, k) ==>
      Run(s, its).savedCursor == Run(s, its[..k + 1]).cursor && Run(s, its).savedCursor.Some?
    decreases |its|
  {
    hide SavesAt;
    if its != [] {
      var n := |its| - 1;
      var shorter := its[..n];
      SavedCursorIsThatOfLastSave(s, shorter);
      RunSnoc(s, its);
      LastIterationSaves(s, its);
      assert its[..n + 1] == its;
      forall k: nat | k < n ensures SavesAt(s, its, k) == SavesAt(s, shorter, k) && its[..k + 1] == shorter[..k + 1] {
        SavesInPrefix(s, its, k);
      }
      forall k: nat | k < n && LastSave(s, its, k) ensures LastSave(s, shorter, k) {
      }
    }
  }

  lemma {:induction false} SavesInPrefix(s: State, its: seq<Iteration>, k: nat)
    requires k < |its| - 1
    ensures SavesAt(s, its, k) == SavesAt(s, its[..|its| - 1], k)
    ensures its[..k + 1] == its[..|its| - 1][..k + 1]
  {
    assert its[..|its| - 1][..k] == its[..k];
  }

  lemma {:induction false} LastIterationSaves(s: State, its: seq<Iteration>)
    requires its != []
    ensures var n := |its| - 1; var before, after := Run(s, its[..n]), Next(Run(s, its[..n]), its[n]);
      if SavesAt(s, its, n) then after.savedCursor == after.cursor && after.savedCursor.Some?
      else after.savedCursor == before.savedCursor
  {
    hide Run, Pull;
  }

  /** A checked batch of the log ends with a cursor. */
  lemma {:induction false} BatchHasCursor(log: seq<Edge>, s: State, p: nat, it: Iteration)
    requires p <= |log| && s.cursor == CursorAt(log, p) && Honest(it.serve, log)
    ensures BatchOf(s, it).Some? ==> BatchOf(s, it).value.next.Some?
  {
    assert Ids(log[p..p]) == [];
    var end := PullIsSlice(it.serve, log, p, p, 0, MAX_PULLING);
  }

  ghost predicate EveryCursorSaveSucceeds(its: seq<Iteration>) {
    forall it :: it in its && it.Checks? ==> it.cursorSaved
  }

  /** If every cursor save succeeds, the saved cursor is the current one, unless nothing was checked at all. */
  lemma {:induction false} SavedCursorIsCurrent(log: seq<Edge>, first: State, start: nat, s: State, p: nat,
                                                its: seq<Iteration>)
    requires Reached(log, first, start, s, p) && LegalRun(log, s, its) && EveryCursorSaveSucceeds(its)
    ensures if exists k: nat :: k < |its| && ChecksAt(s, its, k)
            then Run(s, its).savedCursor == Run(s, its).cursor
            else Run(s, its) == s
    decreases |its|
  {
    hide Reached;
    if its != [] {
      var next := Next(s, its[0]);
      var end := NextReaches(log, first, start, s, p, its[0]);
      assert its[0] in its && EveryCursorSaveSucceeds(its[1..]);
      SavedCursorIsCurrent(log, first, start, next, end, its[1..]);
      ChecksAtFirst(s, its);
      NextSaves(log, first, start, s, p, its[0]);
    }
  }

  lemma {:induction false} ChecksAtFirst(s: State, its: seq<Iteration>)
    requires its != []
    ensures (exists k: nat :: k < |its| && ChecksAt(s, its, k)) <==>
      BatchOf(s, its[0]).Some? || exists k: nat :: k < |its[1..]| && ChecksAt(Next(s, its[0]), its[1..], k)
  {
    hide BatchOf, Next;
    assert its[..0] == [] && (ChecksAt(s, its, 0) <==> BatchOf(s, its[0]).Some?);
    forall k: nat | 0 < k < |its| ensures ChecksAt(s, its, k) == ChecksAt(Next(s, its[0]), its[1..], k - 1) {
      assert its[..k][1..] == its[1..][..k - 1];
    }
    if k: nat :| k < |its| && ChecksAt(s, its, k) {
      assert k > 0 ==> ChecksAt(Next(s, its[0]), its[1..], k - 1);
    }
    if k: nat :| k < |its[1..]| && ChecksAt(Next(s, its[0]), its[1..], k) {
      assert ChecksAt(s, its, k + 1);
    }
  }

  lemma {:induction false} NextSaves(log: seq<Edge>, first: State, start: nat, s: State, p: nat, it: Iteration)
    requires Reached(log, first, start, s, p) && Legal(log, s, it) && (it.Checks? ==> it.cursorSaved)
    ensures if BatchOf(s, it).Some? then Next(s, it).savedCursor == Next(s, it).cursor else Next(s, it) == s
  {
    hide Pull;
    BatchHasCursor(log, s, p, it);
  }

  /**
   A resync goes on exactly where the last save left off: at the place reached right after it. If every cursor
   save succeeds, that is the place reached by the whole run, so nothing is checked twice and nothing is skipped.
   */
  lemma {:induction false} ResyncGoesOn(log: seq<Edge>, first: State, start: nat, its: seq<Iteration>, k: nat,
                                        newest: Page)
    returns (q: nat)
    requires Reached(log, first, start, first, start) && LegalRun(log, first, its)
    requires k < |its| && LastSave(first, its, k)
    ensures var end := Run(first, its); var again := Startup(end.savedCursor, end.savedCount, true, newest);
      && Reached(log, first, start, Run(first, its[..k + 1]), q)
      && again.cursor == CursorAt(log, q) && Reached(log, again, q, again, q)
      && (EveryCursorSaveSucceeds(its) ==> end == Run(first, its[..k + 1]))
  {
    hide Next, Honest;
    LegalPrefix(log, first, its, k + 1);
    q := RunReaches(log, first, start, first, start, its[..k + 1]);
    SavedCursorIsThatOfLastSave(first, its);
    if EveryCursorSaveSucceeds(its) {
      forall j | k < j < |its| ensures !ChecksAt(first, its, j) {
        CheckedIsSaved(log, first, start, its, j);
      }
      IdleAfter(first, its, k + 1);
    }
    assert Ids(log[q..q]) == [];
  }

  lemma {:induction false} CheckedIsSaved(log: seq<Edge>, first: State, start: nat, its: seq<Iteration>, j: nat)
    requires Reached(log, first, start, first, start) && LegalRun(log, first, its)
    requires j < |its| && EveryCursorSaveSucceeds(its)
    ensures ChecksAt(first, its, j) ==> SavesAt(first, its, j)
  {
    hide Next, Honest;
    LegalPrefix(log, first, its, j);
    assert its[j] in its;
    var p := RunReaches(log, first, start, first, start, its[..j]);
    LegalAt(log, first, its, j);
    BatchHasCursor(log, Run(first, its[..j]), p, its[j]);
  }

  lemma {:induction false} LegalAt(log: seq<Edge>, s: State, its: seq<Iteration>, k: nat)
    requires LegalRun(log, s, its) && k < |its|
    ensures Legal(log, Run(s, its[..k]), its[k])
    decreases |its|
  {
    hide Legal, Next;
    if k > 0 {
      LegalAt(log, Next(s, its[0]), its[1..], k - 1);
      assert its[..k][1..] == its[1..][..k - 1];
    }
  }

  lemma {:induction false} IdleAfter(s: State, its: seq<Iteration>, k: nat)
    requires k <= |its| && forall j :: k <= j < |its| ==> !ChecksAt(s, its, j)
    ensures Run(s, its) == Run(s, its[..k])
    decreases |its|
  {
    if k == |its| {
      assert its[..k] == its;
    } else {
      var n := |its| - 1;
      var shorter := its[..n];
      RunSnoc(s, its);
      assert !ChecksAt(s, its, n);
      forall j | k <= j < n ensures !ChecksAt(s, shorter, j) {
        assert shorter[..j] == its[..j] && !ChecksAt(s, its, j);
      }
      IdleAfter(s, shorter, k);
      assert shorter[..k] == its[..k];
    }
  }

  lemma {:induction false} LegalPrefix(log: seq<Edge>, s: State, its: seq<Iteration>, k: nat)
    requires LegalRun(log, s, its) && k <= |its|
    ensures LegalRun(log, s, its[..k])
    decreases |its|
  {
    hide Legal, Next;
    if k > 0 {
      LegalPrefix(log, Next(s, its[0]), its[1..], k - 1);
      assert its[..k][1..] == its[1..][..k - 1];
    }
  }

  // ----- The persisted counter -----

  /** What the iterations that save the counter add to it: each time the running total. */
  ghost function AddedToCounter(s: State, its: seq<Iteration>): nat
    decreases |its|
  {
    if its == [] then 0
    else
      (if BatchOf(s, its[0]).Some? && its[0].countSaved then s.total + Final(its[0].results) else 0)
      + AddedToCounter(Next(s, its[0]), its[1..])
  }

  lemma {:induction false} CounterAddsUp(s: State, its: seq<Iteration>)
    ensures Run(s, its).savedCount == s.savedCount + AddedToCounter(s, its)
    decreases |its|
  {
    hide Final, Pull;
    if its != [] {
      CounterAddsUp(Next(s, its[0]), its[1..]);
    }
  }

  ghost predicate EverySaveSucceeds(its: seq<Iteration>) {
    forall it :: it in its && it.Checks? ==> it.countSaved
  }

  lemma {:induction false} CounterZeroIff(first: State, s: State, its: seq<Iteration>)
    requires EverySaveSucceeds(its)
    requires s.savedCount == 0 <==> first.savedCount == 0 && s.total == 0
    ensures var end := Run(s, its); end.savedCount == 0 <==> first.savedCount == 0 && end.total == 0
    decreases |its|
  {
    if its != [] {
      assert its[0] in its;
      CounterZeroIff(first, Next(s, its[0]), its[1..]);
    }
  }

  /**
   The database adds the running total each time. After an iteration that checked something it agrees with the
   total in memory exactly if it started at zero and nothing had been counted before that iteration.
   */
  lemma {:induction false} CounterMatchesIff(savedCursor: Option<string>, savedCount: nat, resync: bool, newest: Page,
                          its: seq<Iteration>, last: Iteration)
    requires EverySaveSucceeds(its + [last])
    requires BatchOf(Run(Startup(savedCursor, savedCount, resync, newest), its), last).Some?
    ensures var before := Run(Startup(savedCursor, savedCount, resync, newest), its);
      var after := Next(before, last);
      && after.savedCount == before.savedCount + after.total
      && (after.savedCount == after.total <==> savedCount == 0 && before.total == 0)
  {
    var first := Startup(savedCursor, savedCount, resync, newest);
    assert last in its + [last];
    assert forall it :: it in its ==> it in its + [last];
    CounterZeroIff(first, first, its);
  }

  // ----- The program -----

  class VerifierNode {
    var endCursor: Option<string>
    var totalChecked: nat
    var savedCursor: Option<string>    // database
    var savedCount: nat                // database
    var retries: seq<seq<string>>
    ghost var history: History

    ghost function Contents(): State
      reads this
    {
      State(endCursor, totalChecked, savedCursor, savedCount, retries, history)
    }

    constructor (cursorInDb: Option<string>, countInDb: nat, resync: bool, newest: Page)
      ensures Contents() == Startup(cursorInDb, countInDb, resync, newest)
    {
      endCursor, totalChecked := cursorInDb, countInDb;
      savedCursor, savedCount := cursorInDb, countInDb;
      retries, history := [], NO_HISTORY;
      new;
      if !resync {
        if newest.edges != [] {
          endCursor := newest.endCursor;
          totalChecked := 0;
        } else {
          endCursor := None;
        }
      }
    }

    /** `results` is what the check of the batch returned. */
    method ProcessTransactions(results: seq<ProofResult>) returns (finalCount: nat)
      modifies `retries
      ensures finalCount == Final(results)
      ensures retries == old(retries) + if RetryIds(results) != [] then [RetryIds(results)] else []
      ensures forall id ::
        id in RetryIds(results) <==> exists r :: r in results && r.txId == id && FailedTemporarily(r)
    {
      forall id {
        RetryIdsOf(results, id);
      }
      var retryIds: seq<string> := [];
      for i := 0 to |results|
        invariant retryIds == RetryIds(results[..i]) && |retryIds| <= i
      {
        assert results[..i + 1][..i] == results[..i];
        if Retried(results[i]) {
          retryIds := retryIds + [results[i].txId];
        }
      }
      assert results[..|results|] == results;
      if |retryIds| > 0 {
        retries := retries + [retryIds];
      }
      finalCount := |results| - |retryIds|;
    }

    method SaveEndCursor(succeeds: bool)
      modifies `savedCursor
      ensures savedCursor == if succeeds && endCursor.Some? then endCursor else old(savedCursor)
    {
      if succeeds && endCursor.Some? {
        savedCursor := endCursor;
      }
    }

    method SaveTotalCheckedCount(succeeds: bool)
      modifies `savedCount
      ensures savedCount == if succeeds then old(savedCount) + totalChecked else old(savedCount)
    {
      if succeeds {
        savedCount := savedCount + totalChecked;
      }
    }

    method CheckAndSave(bulk: Bulk, results: seq<ProofResult>, cursorSaved: bool, countSaved: bool)
      modifies this
      ensures Contents() == Advance(old(Contents()), bulk, results, cursorSaved, countSaved)
    {
      hide RetryIds, Final, Extend;
      var newTotalChecked := ProcessTransactions(results);
      totalChecked := totalChecked + newTotalChecked;
      endCursor := bulk.next;
      SaveEndCursor(cursorSaved);
      SaveTotalCheckedCount(countSaved);
      history := Extend(history, bulk.txIds, results);
    }

    method Iterate(it: Iteration)
      modifies this
      ensures Contents() == Next(old(Contents()), it)
    {
      hide Pull, Advance;
      var transactions, _ := GetBulk(it.serve, endCursor, MAX_PULLING);
      if transactions.None? || |transactions.value.txIds| == 0 || it.CheckThrows? {
        return;
      }
      CheckAndSave(transactions.value, it.results, it.cursorSaved, it.countSaved);
    }
  }
}
