# Momoka verifier: a model and its proofs

Momoka verifies publications of the Lens social network whose data is stored on Arweave through Bundlr. A node
follows the log of data availability transactions and checks each of them: the submitter, the timestamp proofs, the
choice of the block, the signer, the emitted event and, for comments, mirrors and quotes, the publication pointed to.
There are two verifiers, one for Node and one in Rust.

This project models both in Dafny and proves properties of whole runs, not of single calls: the worker pool keeps its
promises in every interleaving, every transaction between the watcher and the retry queue is accounted for, a chain
signature succeeds once (and exactly when it does not), the caching gateway and the prefetching verifier answer like
their simple forms (and exactly when they do not), and the two block choices and event checks are related to each other.

| file | models |
|---|---|
| `WorkerPools.dfy` | the worker pool: two listeners per reply, re-queued waiters, promises that follow promises |
| `SignatureSafety.dfy` | verdict cache, used signatures, saves in flight and retries, over all interleavings |
| `Store.dfy` | the key layout of the database and the two-write save of a verdict |
| `ProofChecker.dfy` | the check of one transaction and of its pointer, with and without cached verdicts |
| `Gateways.dfy` | the caching server gateway against the client gateway |
| `Chunks.dfy`, `Batches.dfy` | chunked bulk requests, pairing with timestamp proofs, results, failures and retries of a batch |
| `Watchers.dfy` | paging, the main loop, cursor and counter |
| `Queues.dfy`, `RetryQueues.dfy` | the FIFO queue and the retry loop |
| `Pipelines.dfy` | watcher and retry loop together: where every transaction is, and which are lost |
| `RustBundlr.dfy` | the bulk requests of the Rust verifier, with their pairing by position and its assertion |
| `RustVerifier.dfy` | the concurrent futures of the Rust verifier, its caches and its bulk prefetch |
| `ClosestBlock.dfy` | the choice of the block in both verifiers |
| `EventCheck.dfy` | the cross-check of event and typed data in both verifiers |
| `HexIds.dfy`, `Text.dfy` | ids, UUIDs, publication ids and the removal of prefixes |
| `Models.dfy`, `Prelude.dfy` | error codes, options, results, counted lists |

Concurrent code is a state machine whose steps end where the program awaits: the theorems quantify over all
sequences of steps. Code that updates fields in place is a class whose methods are proved equal to the step functions
the theorems are about. Bundlr, the EVM node, signature recovery and the submitter table are functions or steps of the
environment; a five-second timeout is a check that yields nothing.

## What turned out not to hold

The model follows the code. These are the places where the code differs from its documentation or names; each is
proved, with the exact condition where there is one.

- The pool is not first in, first out: each reply puts the oldest waiter at the end of the queue. A call that has to
  wait can wait for ever exactly if an even number of calls waits before it (`CallCanStarveIff`); otherwise it is served
  after half as many replies (`OddPlaceIsServed`). Without new calls every request is served once (`DrainServesEachOnce`).
- Saves are not awaited, and a check that throws is retried without looking at the used signatures: each of the two
  lets one signature succeed twice (`OverlappingChecksBreakIt`, `BlindRetryBreaksIt`). `StepDoomsIff` says exactly which
  steps, in which states, do.
- A check that fails uses its signature up like one that succeeds, and only a check that throws does not
  (`SignatureIsUsedUpIff`): another transaction with that signature is refused from then on
  (`UsedSignatureIsRefused`).
- The results of a retried check are not looked at: a transaction that fails again with an error worth a retry, or that
  has no result, is checked no more (`LostIff`, `LossIff`). Nothing is lost exactly if every retried check that returns
  has a final verdict for all of its transactions (`NothingIsLostIff`).
- `getClosestBlock` multiplies a target that is already in milliseconds by 1000. The Node verifier therefore accepts
  every readable block whose timestamp in seconds does not exceed the target in milliseconds (`NodeAcceptsIff`). The
  Rust verifier accepts the truly closest blocks, if in addition the block *number* does not exceed the target
  (`RustAcceptsIff`).
- A mismatch of the simulation is never reported as a reorganisation, because the result object it looks at is
  always truthy: it is missed exactly when the node answers that the block is gone (`ReorgIsMissedIff`).
- The cache is asked for a pointer before `ar://` is removed, so prefixed pointers miss it
  (`PrefixedPointerMissesCache`). Timestamp proofs are cached under one id and read under another (`StampsAgreeIff`).
- An error worth a retry, met while checking a pointer, becomes a final one (`StuckPointerIsFinalIff`).
- Timestamp proofs are paired with publications by position: the pairs are right exactly if only trailing proofs
  are missing (`PairsCorrectIff`). Transactions Bundlr does not return get no result (`NothingDroppedIff`).
- The counter in the database adds the running total at every save (`CounterMatchesIff`), and shares its key with one
  possible transaction id (`CounterIsLostIff`, `VerdictSpoilsCounterIff`).
- In Rust a bulk request pairs by position too, and asserts the result: it panics exactly if in one chunk known
  timestamp proofs follow missing ones (`ChunkPanicsIff`), which can depend on the order of a hash set
  (`SomeOrderPanicsIff`). Otherwise the prefetch is harmless exactly if equal transaction ids have equal pointers
  (`PrefetchHarmlessIff`).
- In Rust a cached failure is unwrapped: with or without the prefetch, a call panics exactly if the pointer of a listed
  transaction has a cached failure, or a transaction has one itself and its pointer is in order (`RunPanicsIff`,
  `CallPanicsIff`). So a proof that fails in one call makes later calls panic (`FailedProofPanicsLater`).
- In Rust a signature is recorded only after its proof, and the proofs of a call are in progress together. Two
  transactions of one call with one signature can both succeed exactly if both proofs are valid, both pointers are in
  order and the signature was not recorded before (`BothCanSucceedIff`). If all transactions with it are valid, those
  without a pointer always do (`TogetherAllSucceed`); one that fails early prevents it (`EarlyFailureRefuses`).
- Node takes the first group of the UUID from the text, Rust from the UUID it has read: the publication ids agree
  exactly if the UUID is hyphenated with a lower case first group and both other ids are canonical
  (`NodeAndRustIdsAgreeIff`).

## Model

| member | source | states |
|---|---|---|
| `WorkerPools.WorkerPool.constructor` | momoka-node/src/workers/worker-pool.ts:12-25 | a new pool has every worker free and nothing waiting |
| `WorkerPools.WorkerPool.Call` | momoka-node/src/workers/worker-pool.ts:27-44 | `execute` in place: the whole new state is that of the step function, and the promise handed out is new |
| `WorkerPools.WorkerPool.Shift` | momoka-node/src/workers/worker-pool.ts:21 | running a waiter re-executes its request and chains its promise to the new one |
| `WorkerPools.WorkerPool.OnMessage` | momoka-node/src/workers/worker-pool.ts:20-40 | a reply runs the permanent listener and then every once-listener registered when it arrived |
| `WorkerPools.WorkerPool.Deliver` | momoka-node/src/workers/worker-pool.ts:36-40 | a once-listener removes itself, resolves, frees the worker and runs a waiter, in this order |
| `WorkerPools.EveryRunIsGood` | momoka-node/src/workers/worker-pool.ts:12-45 | in every interleaving of calls and replies: each worker is free once or has exactly one request and one listener for it; calls wait only if no worker is free; every open promise is settled by exactly one place |
| `WorkerPools.CallsGetTheirOwnReply` | momoka-node/src/workers/worker-pool.ts:27-44 | whatever happens before and after, a promise ends in the reply to its own request or is still held exactly once |
| `WorkerPools.MessageUnfolds` | momoka-node/src/workers/worker-pool.ts:20-43 | of the listeners on a worker exactly one is a once-listener, so a reply runs a waiter, delivers, frees, and runs a waiter |
| `WorkerPools.ReplyServesRotatedQueue` | momoka-node/src/workers/worker-pool.ts:20-43 | a reply moves the oldest waiter to the end and starts the waiter then in front: the queue is not first in, first out |
| `WorkerPools.PlaceAfterReply` | momoka-node/src/workers/worker-pool.ts:20-43 | what a reply does to the place of a waiting call: two places forward, served from place one, from the front to the end (or served, if it waits alone) |
| `WorkerPools.OddPlaceIsServed` | momoka-node/src/workers/worker-pool.ts:20-43 | in every run, new calls included, a call at an odd place moves two places with each reply and is dispatched to a worker by reply number (place + 1) / 2, never to wait again |
| `WorkerPools.EvenPlaceCanStarve` | momoka-node/src/workers/worker-pool.ts:28-32 | a call at an even place has, for every number of replies, a run in which it still waits while each of the replies dispatches another waiting call |
| `WorkerPools.CallCanStarveIff` | momoka-node/src/workers/worker-pool.ts:27-44 | in every reachable state without a free worker: a new call can wait for ever exactly if an even number of calls waits before it |
| `WorkerPools.OldestIsServedIff` | momoka-node/src/workers/worker-pool.ts:20-43 | a reply serves the oldest waiter exactly if nobody else waits |
| `WorkerPools.DrainServesEachOnce` | momoka-node/src/workers/worker-pool.ts:20-43 | with no new calls each reply serves one outstanding request, and what was served plus what is left is what was there |
| `WorkerPools.DrainingGoesOn` | momoka-node/src/workers/worker-pool.ts:27-44 | as long as a request is outstanding some worker has one to reply to |
| `WorkerPools.DrainedPoolIsIdle` | momoka-node/src/workers/worker-pool.ts:27-44 | after as many replies as there were requests all workers are free and every promise is resolved |
| `SignatureSafety.SecondCandidateIff` | momoka-node/src/proofs/da-proof-checker.ts:92-107 | with one candidate per signature (cached success, success in flight, or waiting retry that will not look), a step adds a second one exactly if it breaks: a condition on the saves in flight, the waiting retries and the cache before the step |
| `SignatureSafety.DoomedIff` | momoka-node/src/proofs/check-da-proofs-batch.ts:172-225 | in every state: finishing what has begun can end in two successes with one signature exactly if a signature has two candidates |
| `SignatureSafety.StepDoomsIff` | momoka-node/src/proofs/check-da-proofs-batch.ts:172-225 | from any state that cannot end so, a step leads to one that can exactly if it breaks |
| `SignatureSafety.UnbrokenRunsAreSafe` | momoka-node/src/proofs/check-da-proofs-batch.ts:172-225 | over every run without such a step no two transactions with one signature are both successes, then or after finishing |
| `SignatureSafety.UnbrokenFromStart` | momoka-node/src/proofs/check-da-proofs-batch.ts:172-225 | the same for every run of a new node |
| `SignatureSafety.GuardedStepKeeps` | momoka-node/src/proofs/check-da-proofs-batch.ts:172-225 | checks with no save of the same signature in flight, and retries whose first check had the publication, keep the invariant |
| `SignatureSafety.OneSuccessPerSignature` | momoka-node/src/proofs/da-proof-checker.ts:92-107 | over every such run no two transactions with one chain signature are both cached as successes |
| `SignatureSafety.SignaturesAreRecorded` | momoka-node/src/input-output/db.ts:86-99 | over every run, and between the two writes of every save, a verdict cached with its publication has its signature on record |
| `SignatureSafety.FirstCheckSaves` | momoka-node/src/proofs/da-proof-checker.ts:92-107 | in every state a first check saves its verdict with the publication, the refusal of a used signature, or the cached result over again, and queues exactly the temporary failures |
| `SignatureSafety.OtherChecksSave` | momoka-node/src/proofs/check-da-proofs-batch.ts:172-225 | a retry saves what it concludes whatever the node knows; a check that throws saves an unknown failure without publication, and a first one is queued |
| `SignatureSafety.SaveIsWritten` | momoka-node/src/input-output/db.ts:86-99 | the signature goes on record before the verdict is stored, and only with a publication |
| `SignatureSafety.CheckRecordsSignature` | momoka-node/src/proofs/check-da-proofs-batch.ts:60-65 | for every state and verdict: one write after a first check of a new transaction, or a retry, that comes to a verdict, its signature is on record, failures included |
| `SignatureSafety.SignatureIsUsedIff` | momoka-node/src/proofs/check-da-proofs-batch.ts:172-225 | over every run a signature is on record or about to be exactly if it was before or some check came to a verdict on it |
| `SignatureSafety.SignatureIsUsedUpIff` | momoka-node/src/input-output/db.ts:86-99 | over every run of a new node whose saves are through: a signature is on record exactly if some check, successful or not, came to a verdict on it |
| `SignatureSafety.SignaturesStay` | momoka-node/src/input-output/db.ts:142-154 | over every run signatures stay on record |
| `SignatureSafety.UsedSignatureIsRefused` | momoka-node/src/proofs/da-proof-checker.ts:98-107 | after any further steps a first check of any uncached transaction with a recorded signature saves the refusal and queues no retry, whatever its verdict would be |
| `SignatureSafety.OverlappingChecksBreakIt` | momoka-node/src/proofs/check-da-proofs-batch.ts:196 | two checks before the first save is written can both succeed with one signature |
| `SignatureSafety.BlindRetryBreaksIt` | momoka-node/src/proofs/check-da-proofs-batch.ts:209-224 | a check that throws leaves no signature behind, and its retry can be a second success |
| `Store.KeysCollideIff` | momoka-node/src/input-output/db.ts:16-23 | two slots share a key only if they are equal or are the counter and a transaction called like it |
| `Store.PutRefinesUpdate` | momoka-node/src/input-output/db.ts:86-142 | writing one key of the store changes one entry of one of the independent maps it stands for |
| `Store.CounterIsLostIff` | momoka-node/src/input-output/db.ts:208-236 | a write changes the counter exactly if it is for the transaction that shares its key |
| `Store.SaveKeepsRecorded` | momoka-node/src/input-output/db.ts:86-99 | both writes of a verdict, and the first alone, keep the signatures of stored publications on record |
| `Store.Db.Start` | momoka-node/src/input-output/db.ts:28-48 | a second start is an error |
| `Store.Db.Read` | momoka-node/src/input-output/db.ts:67-78 | a read gives the entry of its own map, nothing before the database is started |
| `Store.Db.Save` | momoka-node/src/input-output/db.ts:125-135 | a save that does not fail updates its own map and no other; one that fails or comes too early changes nothing |
| `Store.Db.SaveTx` | momoka-node/src/input-output/db.ts:86-99 | the verdict is stored only after its signature, either failure is an error, and signatures stay on record in all cases |
| `Store.Db.HasSignatureBeenUsed` | momoka-node/src/input-output/db.ts:142-154 | true exactly for the signatures saved |
| `Store.Db.TotalCheckedCount` | momoka-node/src/input-output/db.ts:208-221 | the stored number, zero if there is none or an empty text, not a number exactly if something else is stored under its key |
| `Store.VerdictSpoilsCounterIff` | momoka-node/src/input-output/db.ts:86-99 | saving a verdict makes the counter unreadable exactly for the transaction that shares its key |
| `Store.Db.SaveTotalCheckedCount` | momoka-node/src/input-output/db.ts:227-236 | a stored number becomes its sum with the argument, anything else is replaced by the argument; no other entry changes |
| `ProofChecker.CheckPointingIff` | momoka-node/src/proofs/publications/comment/index.ts:25-70 | comments, mirrors and quotes pass exactly with a pointer on the data layer, an allowed signer, a matching event and, if asked, a pointer that holds |
| `ProofChecker.KindIs` | momoka-node/src/proofs/publications/create-da-publication-verifier.ts:29-88 | the dispatch on action and version: what is recognised, what is a post, and what is version 1 |
| `ProofChecker.CheckFetchedIff` | momoka-node/src/proofs/da-proof-checker.ts:200-269 | a fetched publication passes exactly if it is valid by itself, as stated on its action and parameters, and what it points to holds |
| `ProofChecker.CheckDAProofIff` | momoka-node/src/proofs/da-proof-checker.ts:137-190 | a check succeeds exactly if an earlier verdict says so, or the transaction is retrievable and valid and its pointer holds |
| `ProofChecker.UncachedCheckIff` | momoka-node/src/client/client-da-proof-gateway.ts:14-44 | without a cache a check succeeds exactly if a flat predicate on the action and the parameters of the event, the envelope, the signer, the simulation and the pointer holds for the publication and for the one it points to |
| `ProofChecker.AtMostTwoFetches` | momoka-node/src/proofs/da-proof-checker.ts:137-190 | in every graph of pointers, cycles and self-pointers included, a check requests at most two publications |
| `ProofChecker.FetchesExactly` | momoka-node/src/proofs/da-proof-checker.ts:137-190 | exactly which publications a check requests: none if its verdict is known, otherwise its own, and that of its pointer if it gets there and knows no verdict for it |
| `ProofChecker.CachedCheckIff` | momoka-node/src/proofs/da-proof-checker.ts:495-519 | with earned successes the cached check succeeds exactly if the uncached one does and no cached failure answers first |
| `ProofChecker.EverySuccessIsEarned` | momoka-node/src/proofs/check-da-proofs-batch.ts:172-225 | over every run of checks, retries and throws, with saves arriving late and in any order, each cached success is one a full check without a cache confirms, although the check of its pointer may have used the cache |
| `ProofChecker.SavedVerdictAnswers` | momoka-node/src/proofs/da-proof-checker.ts:495-519 | a saved verdict, success or failure, answers the next first check of its transaction without a request, and nothing else changes |
| `ProofChecker.PrefixedPointerMissesCache` | momoka-node/src/proofs/da-proof-checker.ts:142-149 | if pointers carry `ar://` the cache has no effect on them |
| `ProofChecker.PrefixMattersIff` | momoka-node/src/proofs/da-proof-checker.ts:142-149 | the prefixed and the bare location of a pointer get different verdicts exactly if what is pointed to is valid by itself and has a cached failure |
| `ProofChecker.MetadataCheckIsTheCheck` | momoka-node/src/proofs/da-proof-checker.ts:86-128 | the batch form of the check agrees with the single form on the same data |
| `ProofChecker.FirstCheckIff` | momoka-node/src/proofs/da-proof-checker.ts:86-128 | a first check passes exactly with an unused signature, a valid timestamp submitter, a valid publication and a pointer that holds |
| `ProofChecker.ReorgIsNeverReported` | momoka-node/src/proofs/publications/post/da-post-verifier-v1.ts:95-108 | the error for a reorganised chain never comes out of the checker |
| `ProofChecker.ReorgIsMissedIff` | momoka-node/src/proofs/publications/post/da-post-verifier-v1.ts:95-108 | the intended test differs from the one made exactly on a mismatch for which the node answers that the block is gone; then a failed simulation is reported instead |
| `ProofChecker.RetriableIff` | momoka-node/src/queue/process-retry-check-da-proofs.queue.ts:20-28 | for a single check that is not answered by the cache: the failure is tried again exactly if the check, in order so far, got stuck at a read: a request to Bundlr for the transaction, its proofs or their owner, a block, or a profile, simulation or publication count the node did not give; a signature that cannot be recovered is no such case |
| `ProofChecker.JobRetriableIff` | momoka-node/src/proofs/check-da-proofs-batch.ts:172-225 | the same for the checks of a batch: tried again exactly if the check throws, repeats a cached failure with one of the five temporary errors, or gets past cache, signature and submitter and is stuck at such a read |
| `ProofChecker.PointerBlamedIff` | momoka-node/src/proofs/publications/comment/index.ts:31-55 | the pointer is blamed exactly if the publication is in order up to its pointer and the pointer does not hold |
| `ProofChecker.StuckPointerIsFinalIff` | momoka-node/src/proofs/publications/comment/index.ts:43-54 | exactly when an error worth a retry, met on the pointer, is turned into a final one: the publication is in order up to its pointer, and the pointer check got stuck at a read or is answered by such a cached error |
| `ProofChecker.EnvelopeErrorIff` | momoka-node/src/proofs/da-proof-checker.ts:200-257 | each of the nine errors of the envelope is reported exactly if its condition is the first to fail |
| `ProofChecker.ContentErrorIff` | momoka-node/src/proofs/da-proof-checker.ts:425-470 | in a good envelope: exactly when each error of recognition, id, pointer, nonce and signer is reported, and that errors of the node are passed on |
| `ProofChecker.PostErrorIff` | momoka-node/src/proofs/publications/post/index.ts:14-38 | exactly when each error of a post is reported, in the order pointer, signer (version 2), simulation, count, mismatch, event |
| `ProofChecker.RetrievalErrorIff` | momoka-node/src/proofs/da-proof-checker.ts:137-190 | exactly when a transaction is refused for what Bundlr does not have, does not answer, or has from another submitter; otherwise the publication decides |
| `ProofChecker.BatchErrorIff` | momoka-node/src/proofs/da-proof-checker.ts:86-128 | what a check of a batch concludes before it looks at the publication: unknown if it throws, the cached verdict, a used signature, a wrong submitter |
| `Gateways.RunIsFaithful` | momoka-node/src/proofs/da-proof-gateway.ts:32-73 | after any history of reads and delayed saves everything cached came from the oracle |
| `Gateways.BlocksAgreeIff` | momoka-node/src/proofs/da-proof-gateway.ts:32-48 | cached blocks are always those of the node exactly if the node numbers its blocks consistently |
| `Gateways.ServerAnswersLikeClient` | momoka-node/src/proofs/da-proof-gateway.ts:22-74 | after any history both gateways return the same blocks, publications and timestamp proofs |
| `Gateways.StampsAgreeIff` | momoka-node/src/proofs/da-proof-gateway.ts:62-73 | the proofs returned are always the right ones exactly if the transaction is not itself a proof of something else |
| `Gateways.ServerCheckAgainstClientCheck` | momoka-node/src/proofs/da-proof-gateway.ts:22-74 | the whole check through the server gateway after any history of its data, given earned successes, against that of the client |
| `Gateways.NodeCheckAgainstClientCheck` | momoka-node/src/proofs/da-proof-gateway.ts:22-74 | over every run of a new node, verdicts included, its check accepts exactly what the client accepts unless a cached failure answers first; that successes are earned is proved along the run |
| `Gateways.DaProofGateway.GetBlockRange` | momoka-node/src/proofs/da-proof-gateway.ts:32-48 | all blocks or none, each from the cache or the node, and a save for each one fetched |
| `Gateways.PublicationIsKept` | momoka-node/src/proofs/da-proof-gateway.ts:50-60 | a publication seen and saved is read as it was after any further steps, whatever Bundlr answers then |
| `Gateways.StampIsKept` | momoka-node/src/proofs/da-proof-gateway.ts:62-73 | the same for timestamp proofs, under the id they were saved under |
| `Gateways.BlockIsKept` | momoka-node/src/proofs/da-proof-gateway.ts:32-48 | the same for blocks, under the number they report |
| `Gateways.VerdictIsKept` | momoka-node/src/proofs/check-da-proofs-batch.ts:172-225 | in a running node a saved verdict answers every later first check of its transaction without a request, and no other verdict changes |
| `Gateways.SignatureRefusedIff` | momoka-node/src/proofs/da-proof-checker.ts:98-107 | a first check of a transaction the node does not know is refused for its signature exactly if that was used |
| `Chunks.ChunksPartition` | momoka-node/src/common/helpers.ts:91-92 | chunks concatenate to the list, all but the last are full, their number is the quotient rounded up and at least one |
| `Batches.ChunkedFetchIsFetch` | momoka-node/src/proofs/check-da-proofs-batch.ts:129-157 | the chunked request gives the successes, order and failures of one request, or throws exactly if a chunk times out |
| `Batches.AnswerPartition` | momoka-node/src/proofs/check-da-proofs-batch.ts:143-156 | every id requested is either found or reported as failed, with its own transaction or its own reason |
| `Batches.AnswerCount` | momoka-node/src/proofs/check-da-proofs-batch.ts:143-156 | as many come back as were asked for exactly if all are found, and then in the same order |
| `Batches.PairedByIdIff` | momoka-node/src/proofs/check-da-proofs-batch.ts:105-123 | answers stand at the positions of their ids exactly if only trailing ids are missing |
| `Batches.PairsCorrectIff` | momoka-node/src/proofs/check-da-proofs-batch.ts:105-123 | every publication meets its own timestamp proofs exactly if only trailing proofs are missing |
| `Batches.NothingDroppedIff` | momoka-node/src/proofs/check-da-proofs-batch.ts:304-331 | the ids checked are those of the batch exactly if Bundlr knows all publications and all proofs; otherwise some of them, in order |
| `Batches.ProcessPublications` | momoka-node/src/proofs/check-da-proofs-batch.ts:235-285 | one result per publication in the order of the publications, one entry in the failed queue per failure in the order of completion |
| `Batches.FailuresAreThoseOfThePublications` | momoka-node/src/proofs/check-da-proofs-batch.ts:261-268 | in whatever order checks complete, the failed queue gains the same entries |
| `Batches.FailureEntries` | momoka-node/src/proofs/check-da-proofs-batch.ts:261-268 | in whatever order checks complete, an entry (transaction, reason, submitter of the proofs) is in the failed queue once for each publication that fails so, unknown for a check that threw |
| `Batches.CheckPublication` | momoka-node/src/proofs/check-da-proofs-batch.ts:259-278 | one check and its entry in the failed queue |
| `Batches.ResultsPartition` | momoka-node/src/watchers/verifier.watcher.ts:154-172 | final and retried ids together are the ids with a result, each counted once |
| `Batches.SortedOneByOne` | momoka-node/src/watchers/verifier.watcher.ts:154-172 | results are sorted one by one in their order: retried exactly with one of the five temporary errors, final otherwise |
| `Models.RetriedErrors` | momoka-node/src/queue/process-retry-check-da-proofs.queue.ts:20-28 | exactly the five errors of a failed read or a thrown check are tried again |
| `Batches.CheckDAProofsBatch` | momoka-node/src/proofs/check-da-proofs-batch.ts:296-340 | throws exactly if a request does, leaving the failed queue alone; otherwise results for paired publications only: a success exactly for those whose check succeeded in time, a retry exactly for those whose check threw or failed with one of the five temporary errors |
| `Watchers.GetBulk` | momoka-node/src/watchers/verifier.watcher.ts:98-129 | the result is that of consecutive non-empty pages, at most the given number (but at least one is asked for), and paging stops at the bound, at a cursor that is null or empty, or at an empty page |
| `Watchers.PullIsSlice` | momoka-node/src/watchers/verifier.watcher.ts:98-129 | against a growing log, what is pulled is the slice between the cursor before and the cursor after |
| `Watchers.NextReaches` | momoka-node/src/watchers/verifier.watcher.ts:229-263 | an iteration checks the next slice and moves the cursor past it, or changes nothing |
| `Watchers.RunReaches` | momoka-node/src/watchers/verifier.watcher.ts:229-263 | over every run the checked batches are exactly the slice from the first cursor to the current one, the saved cursor is never ahead, the total is its start plus all final verdicts |
| `Watchers.BatchIsOfPages` | momoka-node/src/watchers/verifier.watcher.ts:231-242 | the batch of an iteration is what at most ten consecutive non-empty pages hold from the cursor on |
| `Watchers.SavedCursorIsThatOfLastSave` | momoka-node/src/watchers/verifier.watcher.ts:253-256 | over every run the saved cursor is the one in memory right after the last iteration that checked a batch and saved its cursor, or the one saved before the run |
| `Watchers.SavedCursorIsCurrent` | momoka-node/src/input-output/db.ts:195-203 | if every cursor save succeeds and something was checked, the saved cursor is the current one |
| `Watchers.ResyncGoesOn` | momoka-node/src/watchers/verifier.watcher.ts:193-264 | after any run a resync goes on exactly at the place reached by the last save; if every save succeeds, at the place reached by the run |
| `Watchers.CounterAddsUp` | momoka-node/src/input-output/db.ts:227-236 | over every run the stored counter grows by the running total of each iteration whose save succeeded |
| `Watchers.NoEmptyRetry` | momoka-node/src/watchers/verifier.watcher.ts:154-167 | over every run no empty batch is handed to the retry queue and none is taken back |
| `Watchers.StartupReaches` | momoka-node/src/watchers/verifier.watcher.ts:205-227 | a resync continues at the saved cursor with the saved total, any other start at the end of the log, counting from zero if there is a log |
| `Watchers.CounterMatchesIff` | momoka-node/src/input-output/db.ts:227-236 | the stored counter agrees with the total in memory exactly if both were zero before the iteration |
| `Watchers.VerifierNode.constructor` | momoka-node/src/watchers/verifier.watcher.ts:205-227 | cursor and total at startup, from the database and the newest transaction |
| `Watchers.VerifierNode.ProcessTransactions` | momoka-node/src/watchers/verifier.watcher.ts:139-173 | counts final verdicts and hands the ids that failed with one of the five temporary errors, and no others, to the retry queue, if there are any |
| `Watchers.VerifierNode.SaveEndCursor` | momoka-node/src/input-output/db.ts:195-203 | the saved cursor becomes the current one or stays |
| `Watchers.VerifierNode.SaveTotalCheckedCount` | momoka-node/src/input-output/db.ts:227-236 | the stored counter grows by the running total or stays |
| `Watchers.VerifierNode.CheckAndSave` | momoka-node/src/watchers/verifier.watcher.ts:250-256 | the state after a checked batch, whichever of the two saves succeed |
| `Watchers.VerifierNode.Iterate` | momoka-node/src/watchers/verifier.watcher.ts:229-263 | one pass of the main loop in place |
| `Queues.Queue.Enqueue` | momoka-node/src/queue/base.queue.ts:13-15 | appends |
| `Queues.Queue.Dequeue` | momoka-node/src/queue/base.queue.ts:27-32 | takes the oldest item, nothing from an empty queue |
| `RetryQueues.BatchesAreConserved` | momoka-node/src/queue/process-retry-check-da-proofs.queue.ts:35-60 | over every run each non-empty batch ever enqueued is delayed, queued, being checked or completed, in one place only |
| `RetryQueues.DrainCompletesInOrder` | momoka-node/src/queue/process-retry-check-da-proofs.queue.ts:35-60 | if no check throws the queue is completed in its order, and only empty batches vanish |
| `RetryQueues.ThrowingBatchComesRound` | momoka-node/src/queue/process-retry-check-da-proofs.queue.ts:53-56 | a batch whose check throws is checked again, after everything queued by then; other delayed batches stay where they are |
| `RetryQueues.RetryLoop.EnqueueWithDelay` | momoka-node/src/queue/base.queue.ts:22-25 | the batch is delayed, not queued |
| `RetryQueues.RetryLoop.Wake` | momoka-node/src/queue/base.queue.ts:22-25 | after its delay a batch joins the end of the queue |
| `RetryQueues.RetryLoop.Poll` | momoka-node/src/queue/process-retry-check-da-proofs.queue.ts:40-43 | takes one batch and starts its check unless it is empty |
| `RetryQueues.RetryLoop.Settle` | momoka-node/src/queue/process-retry-check-da-proofs.queue.ts:44-56 | a throwing batch is delayed again; any other leaves the loop with its results on record and nowhere else |
| `Pipelines.RetryStepKeeps` | momoka-node/src/queue/process-retry-check-da-proofs.queue.ts:35-60 | a step of the retry loop moves transactions or settles them, and adds exactly its loss to the lost ones |
| `Pipelines.NextHandsOver` | momoka-node/src/watchers/verifier.watcher.ts:158-167 | at every step what the retry loop holds, has settled and has lost is exactly what the watcher handed over |
| `Pipelines.EveryTransactionIsAccounted` | momoka-node/src/watchers/verifier.watcher.ts:229-263 | however watcher and retry loop interleave, the slice of the log up to the cursor is: final verdicts, final verdicts of retries, transactions delayed, queued or being checked, those dropped for want of an answer, and those lost on a retry |
| `Pipelines.LostIff` | momoka-node/src/queue/process-retry-check-da-proofs.queue.ts:44-52 | a transaction is lost exactly if at some step of the run a retried check that returns loses it |
| `Pipelines.LossIff` | momoka-node/src/queue/process-retry-check-da-proofs.queue.ts:44-52 | a returning check loses exactly the transactions that fail again with one of the five temporary errors or have fewer results than the batch has entries for them |
| `Pipelines.NothingIsLostIff` | momoka-node/src/queue/process-retry-check-da-proofs.queue.ts:35-60 | nothing is lost exactly if every retried check that returns has a final verdict for all of its transactions |
| `Pipelines.AccountSinceStartup` | momoka-node/src/watchers/verifier.watcher.ts:193-264 | the same account for every run from startup, with exactly the lost transactions, and a total that is right |
| `RustVerifier.PrefetchHarmlessIff` | momoka-rs/src/verifier/proof.rs:500-537 | for all data the pointers found in a bulk response are those fetched one by one exactly if equal transaction ids have equal pointers |
| `RustVerifier.PointerIdIs` | momoka-rs/src/verifier/proof.rs:539 | the id of a pointer is what remains without any `ar://`, also if it is written twice |
| `RustVerifier.PointersAre` | momoka-rs/src/verifier/proof.rs:500-537 | what each future works with: in a list of more than ten, what Bundlr has for the last pointer under the id of its transaction, and nothing otherwise |
| `RustVerifier.PointerVerdictIff` | momoka-rs/src/verifier/proof.rs:537-559 | a pointer is in order exactly if it resolves, from the prefetch or by a request, to a transaction with a valid proof; a failing proof gives the pointer error, a failing fetch its own |
| `RustVerifier.FailingPointerEnds` | momoka-rs/src/verifier/proof.rs:537-559 | over every run a transaction whose pointer fails never gets past it: it ends with exactly the error of the pointer, and never succeeds |
| `RustVerifier.PrefetchRefinesFetch` | momoka-rs/src/verifier/proof.rs:500-592 | under every schedule of the futures: same verdicts, panics and caches with and without the prefetch, if no answer is an error and no chunk has known timestamp proofs after missing ones; in every other case the call ends at once, with an error or a panic, and the caches stay as they were |
| `RustVerifier.RunPanicsIff` | momoka-rs/src/verifier/proof.rs:539-564 | for distinct transactions none of which is the pointer of another, under every schedule that ends: the futures panic exactly if a pointer has a cached failure, or a transaction has one and its pointer does not end the check; the order of the steps does not matter |
| `RustVerifier.CallPanicsIff` | momoka-rs/src/verifier/proof.rs:500-592 | the whole call panics exactly if the first chunk that does not succeed has known timestamp proofs after missing ones and no failing answer, or the bulk request succeeds and there is such a cached failure; fetching one by one panics exactly in the latter case |
| `RustVerifier.FailedProofPanicsLater` | momoka-rs/src/verifier/proof.rs:572-577 | a transaction whose proof fails in one call makes every later call panic that lists it and gets past its pointer |
| `RustVerifier.CachesAreEarned` | momoka-rs/src/cache.rs:26-63 | under every schedule, panics included, the caches hold their old entries and the verdicts of proofs of this list, each with its signature, and nothing else |
| `RustVerifier.TwoSuccessesIff` | momoka-rs/src/verifier/proof.rs:566-577 | under every schedule two valid transactions with one signature both succeed exactly if their proofs are in progress at the same time |
| `RustVerifier.BothCanSucceedIff` | momoka-rs/src/verifier/proof.rs:539-592 | in the order of `join_all`: some schedule that ends lets two transactions with one signature both succeed exactly if both proofs are valid, both pointers (if any) resolve to transactions with valid proofs, and the signature was not recorded before the call |
| `RustVerifier.TogetherAllSucceed` | momoka-rs/src/verifier/proof.rs:539-592 | in the order of `join_all`: of one call, all transactions without a pointer with one unrecorded signature succeed, if all transactions with it are valid |
| `RustVerifier.EarlyFailureRefuses` | momoka-rs/src/verifier/proof.rs:539-592 | that all are valid is needed: one whose proof fails in the first poll uses the signature up |
| `RustVerifier.RecordedSignatureIsRefused` | momoka-rs/src/verifier/proof.rs:566-577 | under every schedule a recorded signature never succeeds |
| `RustBundlr.PairStamps` | momoka-rs/src/bundlr/api.rs:596-609 | the loop over the zipped lists: the assertion fails exactly if known proofs stand at the position of another transaction, otherwise each response goes where it stands |
| `RustBundlr.RequestChunk` | momoka-rs/src/bundlr/api.rs:563-612 | the outcome for one chunk: the first error among the answers, the failed assertion, or the found transactions with the responses that stand at their positions |
| `RustBundlr.RequestBulk` | momoka-rs/src/bundlr/api.rs:555-627 | the chunks one after the other |
| `RustBundlr.ChunkPanicsIff` | momoka-rs/src/bundlr/api.rs:596-609 | a chunk panics exactly if no answer is an error and known timestamp proofs follow missing ones |
| `RustBundlr.BulkEndsIff` | momoka-rs/src/bundlr/api.rs:555-627 | a bulk request succeeds exactly if no answer is an error and no chunk has such a gap, and then gives exactly the transactions there are, each with its own timestamp proofs |
| `RustBundlr.BulkPanicsIff` | momoka-rs/src/bundlr/api.rs:555-627 | the bulk request panics exactly if its first chunk that does not succeed has known timestamp proofs after missing ones and no failing answer |
| `RustBundlr.FetchOneIsSummary` | momoka-rs/src/bundlr/api.rs:505-515 | a request for one id never panics and gives the transaction with its own timestamp proofs |
| `RustBundlr.SomeOrderPanicsIff` | momoka-rs/src/verifier/proof.rs:512-521 | some order of the set of ids panics exactly if the proofs of one found transaction are missing and those of another are known |
| `RustVerifier.Verifier.LookUp` | momoka-rs/src/verifier/proof.rs:561-570 | the own cached failure panics, a seen signature is refused without a record, otherwise the proof begins |
| `RustVerifier.Verifier.Poll` | momoka-rs/src/verifier/proof.rs:540-588 | one step of a future against the caches: a cached failure of the pointer panics, a cached success changes nothing, a finished proof is recorded |
| `RustVerifier.Verifier.Prefetch` | momoka-rs/src/verifier/proof.rs:500-537 | nothing for up to ten transactions; otherwise the bulk request for the distinct pointer ids, and if it succeeds the pointer of every transaction |
| `RustVerifier.Verifier.ProcessProofs` | momoka-rs/src/verifier/proof.rs:495-592 | under every schedule that ends: a failing bulk request fails the call and a failing assertion panics, both leaving the caches alone; otherwise the caches of the run, and for each transaction in its place the verdict its future ended with |
| `ClosestBlock.ClosestIsEarliestMinimiser` | momoka-node/src/proofs/utils.ts:14-30 | the fold returns the earliest block closest to the target among the first block and those not after the target |
| `ClosestBlock.NodeAcceptsIff` | momoka-node/src/proofs/da-proof-checker.ts:360-420 | on increasing blocks Node accepts exactly if the timestamp, in seconds, is at most the target, in milliseconds |
| `ClosestBlock.NodeAcceptsDistantBlock` | momoka-node/src/proofs/da-proof-checker.ts:360-420 | so it accepts blocks that are not the closest |
| `ClosestBlock.RustDistanceExact` | momoka-rs/src/verifier/proof.rs:92-95 | below the given bounds the 64-bit distance is the true distance |
| `ClosestBlock.WordsWrapAround` | momoka-rs/src/verifier/proof.rs:92-95 | beyond the bounds products and differences are in range and off by a multiple of 2^64 |
| `ClosestBlock.RustAcceptsIff` | momoka-rs/src/verifier/proof.rs:172-216 | Rust accepts exactly the closest blocks whose number does not exceed the target |
| `ClosestBlock.RustErrorIff` | momoka-rs/src/verifier/proof.rs:172-216 | a check panics exactly at the ends of the 64-bit range, and reports unreadable blocks exactly if one of the three cannot be read or none passes the filter |
| `ClosestBlock.RustAcceptanceIsNodeAcceptance` | momoka-rs/src/verifier/proof.rs:85-97 | whatever Rust accepts Node accepts |
| `EventCheck.NodeCommentImpliesRust` | momoka-node/src/proofs/publications/comment/da-comment-verifier-v1.ts:37-70 | a comment whose texts pass in Node and whose module data is empty passes in Rust |
| `EventCheck.CommentChecksAgreeIff` | momoka-rs/src/verifier/transactions/comment.rs:51-79 | on canonical texts Rust accepts exactly what Node accepts with empty module data |
| `EventCheck.NodeMirrorImpliesRust` | momoka-node/src/proofs/publications/mirror/da-mirror-verifier-v1.ts:37-66 | the same for mirrors |
| `EventCheck.MirrorChecksAgreeIff` | momoka-rs/src/verifier/transactions/mirror.rs:51-73 | the same for mirrors, in both directions |
| `EventCheck.CanonicalNumber` | momoka-node/src/proofs/publications/post/da-post-verifier-v1.ts:124 | Node reads a canonical publication number as Rust does, although it takes unprefixed text as decimal |
| `EventCheck.DecimalIsRead` | momoka-node/src/proofs/publications/post/da-post-verifier-v1.ts:124 | a number written in decimal, with its sign, is read as itself |
| `EventCheck.PrintedBytesAreRead` | momoka-rs/src/types/hex.rs:26-71 | bytes are read back as they are printed, with or without the prefix |
| `EventCheck.SameBytesIff` | momoka-rs/src/types/hex.rs:45-56 | two texts are read as the same bytes exactly if they differ in case at most |
| `EventCheck.SameAddressIff` | momoka-rs/src/verifier/transactions/comment.rs:51-79 | two addresses are the same exactly if their texts differ in case at most |
| `EventCheck.PostChecksAgree` | momoka-rs/src/verifier/transactions/post.rs:169-188 | on canonical texts the two checks of a post agree |
| `EventCheck.CanonicalTextsCompare` | momoka-rs/src/types/hex.rs:32-60 | on canonical texts equal texts and equal values are the same |
| `HexIds.AsStr` | momoka-rs/src/types/profile_id.rs:21-27 | the printer pads to an even number of digits |
| `HexIds.PrintParse` | momoka-rs/src/types/profile_id.rs:45-55 | an id below 2^256 is printed in at most 66 characters and read back as it was; a larger one is not read back |
| `HexIds.PrintedIsMinimal` | momoka-rs/src/types/profile_id.rs:21-27 | an id is printed in as few whole bytes as it needs, in lower case |
| `HexIds.PrefixesAreDropped` | momoka-rs/src/types/profile_id.rs:45-55 | any number of leading `0x` is dropped before an id is read |
| `HexIds.PrintingIsInjective` | momoka-rs/src/types/publication_id.rs:21-27 | different ids are printed differently |
| `HexIds.PublicationIdIsDecodable` | momoka-node/src/proofs/utils.ts:38-44 | equal publication ids mean equal profile id, publication number and first group of the UUID |
| `HexIds.NodeAndRustIdsAgreeIff` | momoka-rs/src/types/transaction.rs:503-517 | both verifiers generate the same id exactly if the ids in the event are written as Rust prints them and the UUID is hyphenated with a lower case first group |
| `HexIds.SameFirstGroupIff` | momoka-rs/src/types/transaction.rs:507-514 | the first group of a UUID as text and as printed agree exactly in that form |
| `HexIds.UuidRoundTrip` | momoka-rs/src/types/transaction.rs:507-514 | a UUID read in any of its forms is printed so that it is read back as the same one |
| `HexIds.UuidFormsIff` | momoka-rs/src/types/transaction.rs:507-514 | exactly which texts are read as a UUID |
| `HexIds.UuidIsPrintedInLowerCase` | momoka-rs/src/types/transaction.rs:507-514 | a hyphenated UUID, wrapped or not, is printed as it was written, in lower case |
| `Text.PrefixIsRemoved` | momoka-node/src/proofs/da-proof-checker.ts:149 | the text behind `ar://` comes back in Node always, in Rust exactly if it does not contain `ar://` itself |
| `Text.FirstIsRemoved` | momoka-rs/src/verifier/proof.rs:539 | Node removes the first occurrence of the prefix wherever it stands, Rust goes on with what follows it |

## Left out

- HTTP, GraphQL, JSON-RPC, multicall and LevelDB: functions of the environment and a map from texts to values.
- Signature recovery, receipt verification, deep hash and base64: functions of the environment. That Node removes the
  signature from the shared document while recovering its submitter is part of that function.
- The environment and submitter tables: a predicate on addresses.
- The version 2 verifiers' event checks: `eventMatches` in `ProofChecker`; `EventCheck` has the version 1 records only.
- Retries inside one HTTP request, the wall clock and the concurrency limit: a request fails or not, a delay is over at
  any time, and checks complete in any order.
- Worker crashes and handlers that throw: the pool has no protocol for them.
- Events that vanish from the log and restarts after a crash: the log only grows, and a run begins at startup.
- The trusting watcher, the failed submissions watcher, the disk writes of failed proofs, Anvil, the command line and the
  playground: they would only add easy members.
- Rust's `get_bulk_transactions_ids_api`: the same paging as the watcher's.
- RustVerifier.Verifier.ProcessProofs: the order in which the futures take their steps is a parameter of the method.
- RustVerifier.PrefetchRefinesFetch: a fetch and the proof that follows it are one step, because neither reads a cache.
- RustBundlr.BulkEndsIff: if one chunk fails and another panics, which of the two decides is a matter of time; the model takes the first.
- HexIds.SameFirstGroupIff: the text forms of a UUID are those of the `uuid` crate (the crate itself is not part of this model): hyphenated as in section 3 of RFC 4122, without hyphens, in braces, or as a URN.
- SignatureSafety.SignatureIsUsedUpIff: writes that the storage engine refuses are not among the steps; `Store.Db.SaveTx` models them.
- Watchers.VerifierNode.constructor: a stored counter that is not a number does not reach the watcher.
- ClosestBlock.RustDistanceExact: 64-bit products wrap around, as in a release build; a debug build panics instead.
- Batches.ChunkedFetchIsFetch: Bundlr answers by id, in the order of the request; the code relies on this when pairing by position.
- Batches.ProcessPublications: the order of completion is a parameter of the method.
