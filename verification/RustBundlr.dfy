/**
 Bulk requests of the Rust verifier. A request pairs the transactions it found with the timestamp proofs it found
 by position, and asserts that they belong together.
 */
module RustBundlr {
  import opened Prelude
  import opened Chunks

  datatype VerifierError =
    | CannotConnectToBundlr
    | PointerFailedVerification
    | ChainSignatureAlreadyUsed
    | OtherError(name: string)

  /** `stamp` is the response of the timestamp proofs, once it is known. */
  datatype Transaction = Transaction(id: string, pointer: Option<string>, signature: string, stampId: string,
                                     stamp: Option<string>, content: string)

  /** What there is under the id of timestamp proofs: nothing, something unreadable, or the proofs. */
  datatype StampAnswer = NoStamp | Garbled | Proofs(response: string)

  /** The answers by id; an error is one of the whole request. */
  datatype Bundlr = Bundlr(
    document: string -> Result<Option<Transaction>, VerifierError>,
    stamp: string -> Result<StampAnswer, VerifierError>
  )

  const CHUNK_SIZE := 1000

  /** Documents come under their own ids and without the response of their timestamp proofs. */
  ghost predicate AnswersById(b: Bundlr) {
    forall id :: b.document(id).Ok? && b.document(id).value.Some? ==>
      b.document(id).value.value.id == id && b.document(id).value.value.stamp == None
  }

  // ----- Lists with gaps -----

  /** `filter_map`: what is there, in order. */
  function Keep<T>(xs: seq<Option<T>>): (ys: seq<T>)
    ensures |ys| <= |xs|
  {
    if xs == [] then []
    else
      var n := |xs| - 1;
      Keep(xs[..n]) + (if xs[n].Some? then [xs[n].value] else [])
  }

  /** The position that what is at `j` has once the gaps are closed. */
  function Rank<T>(xs: seq<Option<T>>, j: nat): (k: nat)
    requires j <= |xs|
    ensures k <= j
  {
    |Keep(xs[..j])|
  }

  ghost predicate NoGapBefore<T>(xs: seq<Option<T>>, j: nat) {
    forall i :: 0 <= i < j && i < |xs| ==> xs[i].Some?
  }

  lemma {:induction false} RankGrows<T>(xs: seq<Option<T>>, i: nat, j: nat)
    requires i <= j <= |xs|
    ensures Rank(xs, i) <= Rank(xs, j)
    ensures i < j && xs[i].Some? ==> Rank(xs, i) < Rank(xs, j)
    decreases j
  {
    if i < j {
      assert xs[..j][..j - 1] == xs[..j - 1];
      RankGrows(xs, i, j - 1);
    }
  }

  lemma {:induction false} RankWithoutGaps<T>(xs: seq<Option<T>>, j: nat)
    requires j <= |xs|
    ensures Rank(xs, j) == j <==> NoGapBefore(xs, j)
  {
    if j > 0 {
      assert xs[..j][..j - 1] == xs[..j - 1];
      RankWithoutGaps(xs, j - 1);
    }
  }

  /** Closing the gaps keeps every element, at its rank. */
  lemma {:induction false} KeptAtRank<T>(xs: seq<Option<T>>, j: nat)
    requires j < |xs| && xs[j].Some?
    ensures Rank(xs, j) < |Keep(xs)| && Keep(xs)[Rank(xs, j)] == xs[j].value
  {
    var n := |xs| - 1;
    if j < n {
      KeptAtRank(xs[..n], j);
      assert xs[..n][..j] == xs[..j];
    }
  }

  lemma {:induction false} KeptFrom<T>(xs: seq<Option<T>>, k: nat) returns (j: nat)
    requires k < |Keep(xs)|
    ensures j < |xs| && xs[j].Some? && Rank(xs, j) == k && Keep(xs)[k] == xs[j].value
  {
    var n := |xs| - 1;
    if k < |Keep(xs[..n])| {
      j := KeptFrom(xs[..n], k);
      assert xs[..n][..j] == xs[..j];
    } else {
      j := n;
    }
  }

  lemma {:induction false} KeptIff<T>(xs: seq<Option<T>>, y: T)
    ensures y in Keep(xs) <==> Some(y) in xs
  {
    if xs != [] {
      var n := |xs| - 1;
      KeptIff(xs[..n], y);
      assert xs == xs[..n] + [xs[n]];
    }
  }

  function FirstError<T>(xs: seq<Result<T, VerifierError>>): (e: Option<VerifierError>)
    ensures e.None? <==> forall i :: 0 <= i < |xs| ==> xs[i].Ok?
    ensures e.Some? ==> exists i :: 0 <= i < |xs| && xs[i] == Err(e.value)
  {
    if xs == [] then None else if xs[0].Err? then Some(xs[0].error) else FirstError(xs[1..])
  }

  // ----- One request -----

  /** Timestamp proofs that were found; no response if they could not be read. */
  datatype StampItem = StampItem(id: string, response: Option<string>)

  datatype Bulk = Fetched(transactions: seq<Transaction>) | Failed(error: VerifierError) | AssertionFails

  /** The id of some proofs differs from the one in the transaction at the same position. */
  predicate Mispaired(ts: seq<Transaction>, items: seq<StampItem>) {
    exists k :: 0 <= k < |items| && k < |ts| && items[k].response.Some? && items[k].id != ts[k].stampId
  }

  function Attach(ts: seq<Transaction>, items: seq<StampItem>): seq<Transaction> {
    seq(|ts|, k requires 0 <= k < |ts| =>
      if k < |items| && items[k].response.Some? then ts[k].(stamp := items[k].response) else ts[k])
  }

  /** The loop over the zipped lists; none if its assertion fails. */
  method PairStamps(ts: seq<Transaction>, items: seq<StampItem>) returns (r: Option<seq<Transaction>>)
    ensures r == if Mispaired(ts, items) then None else Some(Attach(ts, items))
  {
    var paired := ts;
    for k := 0 to if |items| < |ts| then |items| else |ts|
      invariant |paired| == |ts|
      invariant forall m :: 0 <= m < |ts| ==> paired[m] == if m < k then Attach(ts, items)[m] else ts[m]
      invariant forall m :: 0 <= m < k ==> items[m].response.None? || items[m].id == ts[m].stampId
    {
      if items[k].response.Some? {
        if items[k].id != ts[k].stampId {
          return None;
        }
        paired := paired[k := ts[k].(stamp := items[k].response)];
      }
    }
    assert paired == Attach(ts, items);
    r := Some(paired);
  }

  function Answers(b: Bundlr, ids: seq<string>): seq<Result<Option<Transaction>, VerifierError>> {
    seq(|ids|, i requires 0 <= i < |ids| => b.document(ids[i]))
  }

  /** Documents that are missing or unreadable fall away. */
  function Found(b: Bundlr, ids: seq<string>): seq<Option<Transaction>> {
    seq(|ids|, i requires 0 <= i < |ids| => if b.document(ids[i]).Ok? then b.document(ids[i]).value else None)
  }

  function StampAnswers(b: Bundlr, ts: seq<Transaction>): seq<Result<StampAnswer, VerifierError>> {
    seq(|ts|, i requires 0 <= i < |ts| => b.stamp(ts[i].stampId))
  }

  function ItemOf(b: Bundlr, stampId: string): Option<StampItem> {
    match b.stamp(stampId)
    case Ok(Proofs(response)) => Some(StampItem(stampId, Some(response)))
    case Ok(Garbled) => Some(StampItem(stampId, None))
    case _ => None
  }

  function Items(b: Bundlr, ts: seq<Transaction>): seq<Option<StampItem>> {
    seq(|ts|, i requires 0 <= i < |ts| => ItemOf(b, ts[i].stampId))
  }

  function FetchChunk(b: Bundlr, ids: seq<string>): Bulk {
    var error := FirstError(Answers(b, ids));
    if error.Some? then Failed(error.value)
    else
      var ts := Keep(Found(b, ids));
      var stampError := FirstError(StampAnswers(b, ts));
      if stampError.Some? then Failed(stampError.value)
      else if Mispaired(ts, Keep(Items(b, ts))) then AssertionFails
      else Fetched(Attach(ts, Keep(Items(b, ts))))
  }

  /** The chunks are requested together. If several end badly, which one decides is a matter of time; here the first. */
  function FetchChunks(b: Bundlr, chunks: seq<seq<string>>): Bulk {
    if chunks == [] then Fetched([])
    else
      match FetchChunk(b, chunks[0])
      case Failed(e) => Failed(e)
      case AssertionFails => AssertionFails
      case Fetched(ts) =>
        match FetchChunks(b, chunks[1..])
        case Failed(e) => Failed(e)
        case AssertionFails => AssertionFails
        case Fetched(rest) => Fetched(ts + rest)
  }

  function FetchBulk(b: Bundlr, ids: seq<string>): Bulk {
    FetchChunks(b, ChunkArray(ids, CHUNK_SIZE))
  }

  /** The requests of one chunk in place. */
  method RequestChunk(b: Bundlr, ids: seq<string>) returns (r: Bulk)
    ensures r == FetchChunk(b, ids)
  {
    var error := FirstError(Answers(b, ids));
    if error.Some? {
      return Failed(error.value);
    }
    var ts := Keep(Found(b, ids));
    var stampError := FirstError(StampAnswers(b, ts));
    if stampError.Some? {
      return Failed(stampError.value);
    }
    var paired := PairStamps(ts, Keep(Items(b, ts)));
    r := if paired.None? then AssertionFails else Fetched(paired.value);
  }

  lemma {:induction false} FetchChunksSnoc(b: Bundlr, chunks: seq<seq<string>>, last: seq<string>)
    ensures FetchChunks(b, chunks + [last]) ==
      match FetchChunks(b, chunks)
      case Failed(e) => Failed(e)
      case AssertionFails => AssertionFails
      case Fetched(ts) =>
        match FetchChunk(b, last)
        case Failed(e) => Failed(e)
        case AssertionFails => AssertionFails
        case Fetched(more) => Fetched(ts + more)
  {
    hide FetchChunk;
    if chunks == [] {
      assert chunks + [last] == [last] && [last][1..] == [];
    } else {
      assert (chunks + [last])[1..] == chunks[1..] + [last];
      FetchChunksSnoc(b, chunks[1..], last);
    }
  }

  method RequestBulk(b: Bundlr, ids: seq<string>) returns (r: Bulk)
    ensures r == FetchBulk(b, ids)
  {
    hide FetchChunk, FetchChunks, ChunkArray;
    var chunks := ChunkArray(ids, CHUNK_SIZE);
    r := Fetched([]);
    assert FetchChunks(b, []) == Fetched([]) by {
      NoChunks(b);
    }
    for i := 0 to |chunks|
      invariant r == FetchChunks(b, chunks[..i])
    {
      assert chunks[..i + 1] == chunks[..i] + [chunks[i]];
      FetchChunksSnoc(b, chunks[..i], chunks[i]);
      if r.Fetched? {
        var response := RequestChunk(b, chunks[i]);
        r := if response.Fetched? then Fetched(r.transactions + response.transactions) else response;
      }
    }
    assert chunks[..|chunks|] == chunks;
  }

  lemma NoChunks(b: Bundlr)
    ensures FetchChunks(b, []) == Fetched([])
  {
  }

  // ----- When the assertion fails -----

  ghost predicate GapAmong(xs: seq<Option<StampItem>>) {
    exists i, j :: 0 <= i < j < |xs| && xs[i].None? && Known(xs, j)
  }

  ghost predicate Known(xs: seq<Option<StampItem>>, j: nat) {
    j < |xs| && xs[j].Some? && xs[j].value.response.Some?
  }

  /** The first known proofs that follow a gap. */
  lemma {:induction false} FirstAfterGap(xs: seq<Option<StampItem>>, j: nat) returns (first: nat)
    requires Known(xs, j) && !NoGapBefore(xs, j)
    ensures Known(xs, first) && !NoGapBefore(xs, first)
    ensures forall k :: 0 <= k < first && Known(xs, k) ==> NoGapBefore(xs, k)
    decreases j
  {
    if k :| 0 <= k < j && Known(xs, k) && !NoGapBefore(xs, k) {
      first := FirstAfterGap(xs, k);
    } else {
      first := j;
    }
  }

  lemma {:induction false} GapMispairs(b: Bundlr, ts: seq<Transaction>)
    requires GapAmong(Items(b, ts))
    ensures Mispaired(ts, Keep(Items(b, ts)))
  {
    var xs := Items(b, ts);
    var i0, j0 :| 0 <= i0 < j0 < |xs| && xs[i0].None? && Known(xs, j0);
    var j := FirstAfterGap(xs, j0);
    var k := Rank(xs, j);
    RankWithoutGaps(xs, j);
    KeptAtRank(xs, j);
    if ts[k].stampId == ts[j].stampId {
      assert Known(xs, k);
      RankWithoutGaps(xs, k);
      RankGrows(xs, k, j);
      assert false;
    }
  }

  lemma {:induction false} MispairingNeedsGap(b: Bundlr, ts: seq<Transaction>)
    requires Mispaired(ts, Keep(Items(b, ts)))
    ensures GapAmong(Items(b, ts))
  {
    var xs := Items(b, ts);
    var items := Keep(xs);
    var k :| 0 <= k < |items| && k < |ts| && items[k].response.Some? && items[k].id != ts[k].stampId;
    var j := KeptFrom(xs, k);
    RankWithoutGaps(xs, j);
    assert Known(xs, j) && !NoGapBefore(xs, j);
  }

  // ----- A request, id by id -----

  function WithStamp(b: Bundlr, t: Transaction): Transaction {
    match b.stamp(t.stampId)
    case Ok(Proofs(response)) => t.(stamp := Some(response))
    case _ => t
  }

  /** The transaction under an id, with the response of its own timestamp proofs. */
  function Summary(b: Bundlr, id: string): Result<Option<Transaction>, VerifierError> {
    match b.document(id)
    case Err(e) => Err(e)
    case Ok(None) => Ok(None)
    case Ok(Some(t)) => if b.stamp(t.stampId).Err? then Err(b.stamp(t.stampId).error) else Ok(Some(WithStamp(b, t)))
  }

  /** `get_transaction_api` */
  function FetchOne(b: Bundlr, id: string): Result<Transaction, VerifierError> {
    match FetchBulk(b, [id])
    case Failed(e) => Err(e)
    case AssertionFails => Err(CannotConnectToBundlr)
    case Fetched(ts) => if ts == [] then Err(CannotConnectToBundlr) else Ok(ts[|ts| - 1])
  }

  ghost predicate StampMissing(b: Bundlr, id: string) {
    b.document(id).Ok? && b.document(id).value.Some? && b.stamp(b.document(id).value.value.stampId) == Ok(NoStamp)
  }

  ghost predicate StampKnown(b: Bundlr, id: string) {
    && b.document(id).Ok? && b.document(id).value.Some?
    && b.stamp(b.document(id).value.value.stampId).Ok? && b.stamp(b.document(id).value.value.stampId).value.Proofs?
  }

  /** A transaction whose timestamp proofs are known comes after one whose proofs are missing. */
  ghost predicate Gap(b: Bundlr, ids: seq<string>) {
    exists i, j :: 0 <= i < j < |ids| && StampMissing(b, ids[i]) && StampKnown(b, ids[j])
  }

  ghost predicate SomeFails(b: Bundlr, ids: seq<string>) {
    exists id :: id in ids && Summary(b, id).Err?
  }

  lemma {:induction false} FoundIff(b: Bundlr, ids: seq<string>, t: Transaction)
    ensures t in Keep(Found(b, ids)) <==> exists id :: id in ids && b.document(id) == Ok(Some(t))
  {
    var xs := Found(b, ids);
    KeptIff(xs, t);
    if Some(t) in xs {
      var i :| 0 <= i < |xs| && xs[i] == Some(t);
      assert ids[i] in ids;
    }
    if id :| id in ids && b.document(id) == Ok(Some(t)) {
      var i :| 0 <= i < |ids| && ids[i] == id;
      assert xs[i] in xs;
    }
  }

  lemma {:induction false} ChunkFailsIff(b: Bundlr, ids: seq<string>)
    ensures FetchChunk(b, ids).Failed? <==> SomeFails(b, ids)
    ensures FetchChunk(b, ids).Failed? ==> exists id :: id in ids && Summary(b, id) == Err(FetchChunk(b, ids).error)
  {
    var ts := Keep(Found(b, ids));
    var e, f := FirstError(Answers(b, ids)), FirstError(StampAnswers(b, ts));
    forall t | t in ts ensures exists id :: id in ids && b.document(id) == Ok(Some(t)) {
      FoundIff(b, ids, t);
    }
    if e.Some? {
      var i :| 0 <= i < |ids| && Answers(b, ids)[i] == Err(e.value);
      assert ids[i] in ids && Summary(b, ids[i]) == Err(e.value);
    } else {
      assert forall i :: 0 <= i < |ids| ==> Answers(b, ids)[i].Ok?;
      if f.Some? {
        var i :| 0 <= i < |ts| && StampAnswers(b, ts)[i] == Err(f.value);
        assert ts[i] in ts;
      } else {
        forall id | id in ids ensures Summary(b, id).Ok? {
          var m :| 0 <= m < |ids| && ids[m] == id;
          assert Answers(b, ids)[m].Ok?;
          if b.document(id).value.Some? {
            FoundIff(b, ids, b.document(id).value.value);
            var i :| 0 <= i < |ts| && ts[i] == b.document(id).value.value;
            assert StampAnswers(b, ts)[i].Ok?;
          }
        }
      }
    }
  }

  lemma {:induction false} GapAmongFound(b: Bundlr, ids: seq<string>)
    requires !SomeFails(b, ids) && GapAmong(Items(b, Keep(Found(b, ids))))
    ensures Gap(b, ids)
  {
    var docs := Found(b, ids);
    var xs := Items(b, Keep(docs));
    var k, l :| 0 <= k < l < |xs| && xs[k].None? && Known(xs, l);
    hide Keep, GapAmong;
    var i := KeptFrom(docs, k);
    var j := KeptFrom(docs, l);
    RankGrows(docs, if i < j then i else j, if i < j then j else i);
    assert ids[i] in ids;
    assert Summary(b, ids[i]).Ok?;
    assert StampMissing(b, ids[i]) && StampKnown(b, ids[j]);
  }

  lemma {:induction false} GapIsFound(b: Bundlr, ids: seq<string>)
    requires !SomeFails(b, ids) && Gap(b, ids)
    ensures GapAmong(Items(b, Keep(Found(b, ids))))
  {
    var docs := Found(b, ids);
    var xs := Items(b, Keep(docs));
    var i, j :| 0 <= i < j < |ids| && StampMissing(b, ids[i]) && StampKnown(b, ids[j]);
    hide Keep, Gap, SomeFails;
    KeptAtRank(docs, i);
    KeptAtRank(docs, j);
    RankGrows(docs, i, j);
    assert Known(xs, Rank(docs, j)) && xs[Rank(docs, i)].None?;
  }

  lemma {:induction false} GapsAgree(b: Bundlr, ids: seq<string>)
    requires !SomeFails(b, ids)
    ensures GapAmong(Items(b, Keep(Found(b, ids)))) <==> Gap(b, ids)
  {
    hide Keep, Found, Items, GapAmong, Gap, SomeFails;
    if GapAmong(Items(b, Keep(Found(b, ids)))) {
      GapAmongFound(b, ids);
    }
    if Gap(b, ids) {
      GapIsFound(b, ids);
    }
  }

  /** The assertion of a request fails exactly if known timestamp proofs follow missing ones. */
  lemma {:induction false} ChunkPanicsIff(b: Bundlr, ids: seq<string>)
    ensures FetchChunk(b, ids).AssertionFails? <==> !SomeFails(b, ids) && Gap(b, ids)
  {
    hide Keep, Found, Items, Mispaired, GapAmong, Gap;
    ChunkFailsIff(b, ids);
    var ts := Keep(Found(b, ids));
    if !SomeFails(b, ids) {
      GapsAgree(b, ids);
      if GapAmong(Items(b, ts)) {
        GapMispairs(b, ts);
      } else if Mispaired(ts, Keep(Items(b, ts))) {
        MispairingNeedsGap(b, ts);
      }
    }
  }

  /** Without a failing assertion every transaction has the response of its own timestamp proofs. */
  lemma {:induction false} AttachedIsOwn(b: Bundlr, ts: seq<Transaction>, k: nat)
    requires k < |ts| && !GapAmong(Items(b, ts))
    ensures Attach(ts, Keep(Items(b, ts)))[k] == WithStamp(b, ts[k])
  {
    var xs := Items(b, ts);
    var items := Keep(xs);
    if Known(xs, k) {
      assert NoGapBefore(xs, k);
      RankWithoutGaps(xs, k);
      KeptAtRank(xs, k);
    } else if k < |items| && items[k].response.Some? {
      var j := KeptFrom(xs, k);
      assert Known(xs, j) && NoGapBefore(xs, j);
      RankWithoutGaps(xs, j);
      assert false;
    }
  }

  lemma {:induction false} ChunkFetches(b: Bundlr, ids: seq<string>, t: Transaction)
    requires FetchChunk(b, ids).Fetched?
    ensures t in FetchChunk(b, ids).transactions <==> exists id :: id in ids && Summary(b, id) == Ok(Some(t))
  {
    var ts := Keep(Found(b, ids));
    var r := FetchChunk(b, ids).transactions;
    ChunkFailsIff(b, ids);
    ChunkPanicsIff(b, ids);
    GapsAgree(b, ids);
    assert |r| == |ts|;
    forall k | 0 <= k < |ts| ensures r[k] == WithStamp(b, ts[k]) {
      AttachedIsOwn(b, ts, k);
    }
    hide FetchChunk, Keep, Found, Items, Attach;
    if t in r {
      var k :| 0 <= k < |r| && r[k] == t;
      FoundIff(b, ids, ts[k]);
    }
    if id :| id in ids && Summary(b, id) == Ok(Some(t)) {
      FoundIff(b, ids, b.document(id).value.value);
      var k :| 0 <= k < |ts| && ts[k] == b.document(id).value.value;
      assert r[k] in r;
    }
  }

  // ----- All chunks -----

  ghost predicate GapInChunk(b: Bundlr, ids: seq<string>) {
    exists chunk :: chunk in ChunkArray(ids, 1000) && Gap(b, chunk)
  }

  lemma {:induction false} ChunksEnd(b: Bundlr, chunks: seq<seq<string>>)
    ensures var r := FetchChunks(b, chunks);
      && (r.Failed? ==> exists id :: id in Concat(chunks) && Summary(b, id) == Err(r.error))
      && (r.AssertionFails? ==> exists chunk :: chunk in chunks && Gap(b, chunk))
      && (r.Fetched? ==> !SomeFails(b, Concat(chunks)) && forall chunk :: chunk in chunks ==> !Gap(b, chunk))
  {
    if chunks != [] {
      hide Gap, Summary, FetchChunk;
      ChunkFailsIff(b, chunks[0]);
      ChunkPanicsIff(b, chunks[0]);
      ChunksEnd(b, chunks[1..]);
      if FetchChunk(b, chunks[0]).AssertionFails? {
        assert chunks[0] in chunks;
      }
    }
  }

  lemma {:induction false} ChunksFetch(b: Bundlr, chunks: seq<seq<string>>, t: Transaction)
    requires FetchChunks(b, chunks).Fetched?
    ensures t in FetchChunks(b, chunks).transactions <==> exists id :: id in Concat(chunks) && Summary(b, id) == Ok(Some(t))
  {
    if chunks != [] {
      hide Summary, FetchChunk;
      ChunkFetches(b, chunks[0], t);
      ChunksFetch(b, chunks[1..], t);
    }
  }

  /**
   A bulk request fetches exactly the transactions there are, each with its own timestamp proofs; it fails only if
   a single answer is an error, and its assertion fails only if in some chunk known timestamp proofs follow missing
   ones. If no answer is an error, it panics exactly in that case.
   */
  lemma {:induction false} BulkEndsIff(b: Bundlr, ids: seq<string>)
    ensures var r := FetchBulk(b, ids);
      && (r.Fetched? <==> !SomeFails(b, ids) && !GapInChunk(b, ids))
      && (r.Failed? ==> exists id :: id in ids && Summary(b, id) == Err(r.error))
      && (r.AssertionFails? ==> GapInChunk(b, ids))
      && (r.Fetched? ==> forall t :: t in r.transactions <==> exists id :: id in ids && Summary(b, id) == Ok(Some(t)))
  {
    hide Gap, Summary, FetchChunks, ChunkArray;
    var chunks := ChunkArray(ids, CHUNK_SIZE);
    ChunksPartition(ids, CHUNK_SIZE);
    ChunksEnd(b, chunks);
    if FetchBulk(b, ids).Fetched? {
      forall t {
        ChunksFetch(b, chunks, t);
      }
    }
  }

  /** The first chunk that does not succeed. */
  ghost predicate FirstBad(b: Bundlr, chunks: seq<seq<string>>, k: nat) {
    && k < |chunks| && (SomeFails(b, chunks[k]) || Gap(b, chunks[k]))
    && forall i :: 0 <= i < k ==> !SomeFails(b, chunks[i]) && !Gap(b, chunks[i])
  }

  /** It has known timestamp proofs after missing ones, and no failing answer. */
  ghost predicate FirstBadChunkGaps(b: Bundlr, ids: seq<string>) {
    exists k: nat :: FirstBad(b, ChunkArray(ids, 1000), k) && !SomeFails(b, ChunkArray(ids, 1000)[k])
  }

  lemma {:induction false} FirstBadDecides(b: Bundlr, chunks: seq<seq<string>>, k: nat)
    requires FirstBad(b, chunks, k)
    ensures if SomeFails(b, chunks[k]) then FetchChunks(b, chunks).Failed? else FetchChunks(b, chunks) == AssertionFails
  {
    hide SomeFails, Gap, FetchChunk;
    ChunkFailsIff(b, chunks[0]);
    ChunkPanicsIff(b, chunks[0]);
    if k > 0 {
      assert forall i :: 0 <= i < k - 1 ==> chunks[1..][i] == chunks[i + 1];
      FirstBadDecides(b, chunks[1..], k - 1);
    }
  }

  lemma {:induction false} FindFirstBad(b: Bundlr, chunks: seq<seq<string>>) returns (k: nat)
    requires !FetchChunks(b, chunks).Fetched?
    ensures FirstBad(b, chunks, k)
  {
    hide SomeFails, Gap, FetchChunk;
    ChunkFailsIff(b, chunks[0]);
    ChunkPanicsIff(b, chunks[0]);
    if SomeFails(b, chunks[0]) || Gap(b, chunks[0]) {
      k := 0;
    } else {
      var i := FindFirstBad(b, chunks[1..]);
      k := i + 1;
      assert forall m :: 0 < m < k ==> chunks[m] == chunks[1..][m - 1];
    }
  }

  /** A bulk request panics exactly if its first chunk that does not succeed has such a gap and no failing answer. */
  lemma {:induction false} BulkPanicsIff(b: Bundlr, ids: seq<string>)
    ensures FetchBulk(b, ids) == AssertionFails <==> FirstBadChunkGaps(b, ids)
  {
    hide SomeFails, Gap, FetchChunks, ChunkArray;
    var chunks := ChunkArray(ids, CHUNK_SIZE);
    if k: nat :| FirstBad(b, chunks, k) && !SomeFails(b, chunks[k]) {
      FirstBadDecides(b, chunks, k);
    }
    if FetchBulk(b, ids) == AssertionFails {
      var k := FindFirstBad(b, chunks);
      FirstBadDecides(b, chunks, k);
    }
  }

  /** A request for one id has nothing to pair wrongly. */
  lemma {:induction false} FetchOneIsSummary(b: Bundlr, id: string)
    ensures FetchBulk(b, [id]) != AssertionFails
    ensures FetchOne(b, id) ==
      match Summary(b, id)
      case Err(e) => Err(e)
      case Ok(None) => Err(CannotConnectToBundlr)
      case Ok(Some(t)) => Ok(t)
  {
    hide FetchChunk;
    var r := FetchBulk(b, [id]);
    assert ChunkArray([id], CHUNK_SIZE) == [[id]] && [[id]][1..] == [];
    assert !Gap(b, [id]);
    BulkEndsIff(b, [id]);
    assert SomeFails(b, [id]) <==> Summary(b, id).Err?;
    if r.Fetched? && r.transactions != [] {
      assert r.transactions[|r.transactions| - 1] in r.transactions;
    }
  }

  /** Ids in some order, each once. */
  ghost predicate Enumerates(order: seq<string>, ids: set<string>) {
    Distinct(order) && forall id :: id in order <==> id in ids
  }

  /**
   The ids come out of a hash set in any order. Some order makes the assertion fail exactly if the proofs of one
   found transaction are missing and those of another are known.
   */
  lemma {:induction false} SomeOrderPanicsIff(b: Bundlr, ids: set<string>)
    requires forall id :: id in ids ==> Summary(b, id).Ok?
    ensures (exists order :: Enumerates(order, ids) && FetchBulk(b, order) == AssertionFails) <==>
            (exists x, y :: x in ids && y in ids && StampMissing(b, x) && StampKnown(b, y))
  {
    hide Summary, FetchBulk, StampMissing, StampKnown;
    if x, y :| x in ids && y in ids && StampMissing(b, x) && StampKnown(b, y) {
      MissingIsNotKnown(b, x);
      var rest := Listed(ids - {x, y});
      var order := [x, y] + rest;
      BulkEndsIff(b, order);
      FirstChunkGap(b, order);
      assert !SomeFails(b, order);
      assert Enumerates(order, ids) && FetchBulk(b, order) == AssertionFails;
    }
    if order :| Enumerates(order, ids) && FetchBulk(b, order) == AssertionFails {
      BulkEndsIff(b, order);
      ChunksPartition(order, CHUNK_SIZE);
      var chunk :| chunk in ChunkArray(order, CHUNK_SIZE) && Gap(b, chunk);
      var i, j :| 0 <= i < j < |chunk| && StampMissing(b, chunk[i]) && StampKnown(b, chunk[j]);
      ConcatContains(ChunkArray(order, CHUNK_SIZE), chunk[i]);
      ConcatContains(ChunkArray(order, CHUNK_SIZE), chunk[j]);
    }
  }

  lemma MissingIsNotKnown(b: Bundlr, id: string)
    requires StampMissing(b, id)
    ensures !StampKnown(b, id)
  {
  }

  lemma {:induction false} Listed(ids: set<string>) returns (order: seq<string>)
    ensures Enumerates(order, ids)
  {
    if ids == {} {
      order := [];
    } else {
      var id :| id in ids;
      var rest := Listed(ids - {id});
      order := [id] + rest;
    }
  }

  lemma {:induction false} FirstChunkGap(b: Bundlr, order: seq<string>)
    requires |order| >= 2 && StampMissing(b, order[0]) && StampKnown(b, order[1])
    ensures GapInChunk(b, order)
  {
    var chunk := ChunkArray(order, CHUNK_SIZE)[0];
    assert chunk in ChunkArray(order, CHUNK_SIZE);
    assert chunk[0] == order[0] && chunk[1] == order[1];
    assert Gap(b, chunk);
  }
}
