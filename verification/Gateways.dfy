/**
 The server gateway, which caches blocks, publications and timestamp proofs, against the client gateway, which
 asks every time. Saving is fire and forget: a save reaches the database at any later moment.
 */
module Gateways {
  import opened Prelude
  import opened Models
  import opened ClosestBlock
  import PC = ProofChecker

  /** The EVM node and Bundlr. A document is looked up by the id of its own transaction. */
  datatype Oracle = Oracle(
    block: int -> Option<BlockInfo>,
    publication: string -> PC.Fetch<PC.Publication>,
    stamp: string -> PC.Fetch<PC.Stamp>
  )

  datatype Write =
    | SaveBlock(block: BlockInfo)
    | SaveMetadata(id: string, publication: PC.Publication)
    | SaveProofs(stampId: string, stamp: PC.Stamp)

  datatype Cache = Cache(
    blocks: map<int, BlockInfo>,
    metadata: map<string, PC.Publication>,
    proofs: map<string, PC.Stamp>,
    pending: seq<Write>
  )

  const EMPTY := Cache(map[], map[], map[], [])

  datatype Step =
    | GetBlock(n: int)              // one block of `getBlockRange`
    | SeePublication(id: string)    // a batch fetched this publication
    | SeeStamp(stampId: string)     // a batch fetched these timestamp proofs
    | Flush(i: nat)

  function ReadBlock(c: Cache, o: Oracle, n: int): Option<BlockInfo> {
    if n in c.blocks then Some(c.blocks[n]) else o.block(n)
  }

  function ReadPublication(c: Cache, o: Oracle, id: string): PC.Fetch<PC.Publication> {
    if id in c.metadata then PC.Found(c.metadata[id]) else o.publication(id)
  }

  /** The cache is read under the id of the data transaction. */
  function ReadStamp(c: Cache, o: Oracle, stampId: string, id: string): PC.Fetch<PC.Stamp> {
    if id in c.proofs then PC.Found(c.proofs[id]) else o.stamp(stampId)
  }

  function Later(c: Cache, write: Write): Cache {
    c.(pending := c.pending + [write])
  }

  /** A block is saved under the number it reports, timestamp proofs under the id of their own transaction. */
  function Apply(c: Cache, write: Write): Cache {
    match write
    case SaveBlock(b) => c.(blocks := c.blocks[b.number := b])
    case SaveMetadata(id, publication) => c.(metadata := c.metadata[id := publication])
    case SaveProofs(stampId, stamp) => c.(proofs := c.proofs[stampId := stamp])
  }

  function Next(c: Cache, o: Oracle, step: Step): Cache {
    match step
    case GetBlock(n) =>
      if n in c.blocks || o.block(n).None? then c else Later(c, SaveBlock(o.block(n).value))
    case SeePublication(id) =>
      if o.publication(id).Found? then Later(c, SaveMetadata(id, o.publication(id).value)) else c
    case SeeStamp(stampId) =>
      if o.stamp(stampId).Found? then Later(c, SaveProofs(stampId, o.stamp(stampId).value)) else c
    case Flush(i) =>
      if i < |c.pending| then Apply(c.(pending := c.pending[..i] + c.pending[i + 1..]), c.pending[i]) else c
  }

  function Run(c: Cache, o: Oracle, steps: seq<Step>): Cache
    decreases |steps|
  {
    if steps == [] then c else Run(Next(c, o, steps[0]), o, steps[1..])
  }

  ghost predicate WriteFaithful(o: Oracle, write: Write, stamps: set<string>) {
    match write
    case SaveBlock(b) => exists n :: o.block(n) == Some(b)
    case SaveMetadata(id, publication) => o.publication(id) == PC.Found(publication)
    case SaveProofs(stampId, stamp) => stampId in stamps && o.stamp(stampId) == PC.Found(stamp)
  }

  /** Everything cached or about to be comes from the oracle. */
  ghost predicate Faithful(c: Cache, o: Oracle, stamps: set<string>) {
    && (forall n :: n in c.blocks ==> c.blocks[n].number == n && exists m :: o.block(m) == Some(c.blocks[n]))
    && (forall id :: id in c.metadata ==> o.publication(id) == PC.Found(c.metadata[id]))
    && (forall id :: id in c.proofs ==> id in stamps && o.stamp(id) == PC.Found(c.proofs[id]))
    && (forall write :: write in c.pending ==> WriteFaithful(o, write, stamps))
  }

  /** The history asks for timestamp proofs of these transactions only. */
  ghost predicate StampsAmong(steps: seq<Step>, stamps: set<string>) {
    forall step :: step in steps && step.SeeStamp? ==> step.stampId in stamps
  }

  lemma {:induction false} DataStepIsFaithful(c: Cache, o: Oracle, step: Step, stamps: set<string>)
    requires Faithful(c, o, stamps) && (step.SeeStamp? ==> step.stampId in stamps)
    ensures Faithful(Next(c, o, step), o, stamps)
  {
    match step
    case GetBlock(n) =>
    case SeePublication(id) =>
    case SeeStamp(stampId) =>
    case Flush(i) =>
      if i < |c.pending| {
        FlushIsFaithful(c, o, i, stamps);
      }
  }

  lemma {:induction false} FlushIsFaithful(c: Cache, o: Oracle, i: nat, stamps: set<string>)
    requires Faithful(c, o, stamps) && i < |c.pending|
    ensures Faithful(Next(c, o, Flush(i)), o, stamps)
  {
    assert c.pending[i] in c.pending;
    var rest := c.pending[..i] + c.pending[i + 1..];
    assert forall write :: write in rest ==> write in c.pending;
  }

  lemma {:induction false} RunIsFaithful(c: Cache, o: Oracle, steps: seq<Step>, stamps: set<string>)
    requires Faithful(c, o, stamps) && StampsAmong(steps, stamps)
    ensures Faithful(Run(c, o, steps), o, stamps)
    decreases |steps|
  {
    hide Faithful, Next;
    if steps != [] {
      assert steps[0] in steps;
      DataStepIsFaithful(c, o, steps[0], stamps);
      RunIsFaithful(Next(c, o, steps[0]), o, steps[1..], stamps);
    }
  }

  // ----- Blocks -----

  /** A block answered for one number is the answer for the number it reports. */
  ghost predicate NumbersConsistent(o: Oracle) {
    forall n :: o.block(n).Some? ==> o.block(o.block(n).value.number) == o.block(n)
  }

  ghost predicate BlocksAgree(o: Oracle) {
    forall steps, n :: ReadBlock(Run(EMPTY, o, steps), o, n) == o.block(n)
  }

  /** After every history the cached blocks are those of the node, exactly if the node numbers them consistently. */
  lemma {:induction false} BlocksAgreeIff(o: Oracle)
    ensures BlocksAgree(o) <==> NumbersConsistent(o)
  {
    if NumbersConsistent(o) {
      forall steps, n ensures ReadBlock(Run(EMPTY, o, steps), o, n) == o.block(n) {
        var stamps := set step: Step | step in steps && step.SeeStamp? :: step.stampId;
        RunIsFaithful(EMPTY, o, steps, stamps);
      }
    }
    if BlocksAgree(o) {
      forall n | o.block(n).Some? ensures o.block(o.block(n).value.number) == o.block(n) {
        var b := o.block(n).value;
        var steps := [GetBlock(n), Flush(0)];
        assert steps[1..] == [Flush(0)] && steps[1..][1..] == [];
        var c := Next(EMPTY, o, GetBlock(n));
        assert c.pending == [SaveBlock(b)];
        assert Run(EMPTY, o, steps) == Run(c, o, [Flush(0)]) == Next(c, o, Flush(0));
        assert ReadBlock(Run(EMPTY, o, steps), o, b.number) == Some(b);
      }
    }
  }

  // ----- What has been saved needs no further request -----

  lemma {:induction false} NothingIsForgotten(c: Cache, o: Oracle, steps: seq<Step>)
    ensures var d := Run(c, o, steps);
      c.blocks.Keys <= d.blocks.Keys && c.metadata.Keys <= d.metadata.Keys && c.proofs.Keys <= d.proofs.Keys
    decreases |steps|
  {
    if steps != [] {
      NothingIsForgotten(Next(c, o, steps[0]), o, steps[1..]);
    }
  }

  /** The cache after something was read, its save was done, and any further steps. */
  function SavedThen(c: Cache, o: Oracle, step: Step, steps: seq<Step>): Cache {
    Run(Next(Next(c, o, step), o, Flush(|c.pending|)), o, steps)
  }

  lemma {:induction false} SavedIsFaithful(c: Cache, o: Oracle, step: Step, steps: seq<Step>, stamps: set<string>)
    requires Faithful(c, o, stamps) && StampsAmong([step] + steps, stamps)
    ensures Faithful(SavedThen(c, o, step, steps), o, stamps)
    ensures var once := Next(Next(c, o, step), o, Flush(|c.pending|)); var d := SavedThen(c, o, step, steps);
      once.blocks.Keys <= d.blocks.Keys && once.metadata.Keys <= d.metadata.Keys && once.proofs.Keys <= d.proofs.Keys
  {
    hide Faithful, Next, Run;
    var once := Next(Next(c, o, step), o, Flush(|c.pending|));
    assert step in [step] + steps;
    DataStepIsFaithful(c, o, step, stamps);
    DataStepIsFaithful(Next(c, o, step), o, Flush(|c.pending|), stamps);
    assert forall later :: later in steps ==> later in [step] + steps;
    RunIsFaithful(once, o, steps, stamps);
    NothingIsForgotten(once, o, steps);
  }

  /** A publication that was seen and saved is read from then on as it was, even if Bundlr does not have it any more. */
  lemma {:induction false} PublicationIsKept(c: Cache, o: Oracle, id: string, steps: seq<Step>, stamps: set<string>,
                                             later: Oracle)
    requires Faithful(c, o, stamps) && StampsAmong([SeePublication(id)] + steps, stamps) && o.publication(id).Found?
    ensures ReadPublication(SavedThen(c, o, SeePublication(id), steps), later, id) == o.publication(id)
  {
    SavedIsFaithful(c, o, SeePublication(id), steps, stamps);
  }

  lemma {:induction false} StampIsKept(c: Cache, o: Oracle, stampId: string, steps: seq<Step>, stamps: set<string>,
                                       later: Oracle, other: string)
    requires Faithful(c, o, stamps) && StampsAmong([SeeStamp(stampId)] + steps, stamps) && o.stamp(stampId).Found?
    ensures ReadStamp(SavedThen(c, o, SeeStamp(stampId), steps), later, other, stampId) == o.stamp(stampId)
  {
    SavedIsFaithful(c, o, SeeStamp(stampId), steps, stamps);
  }

  lemma {:induction false} BlockIsKept(c: Cache, o: Oracle, n: int, steps: seq<Step>, stamps: set<string>,
                                       later: Oracle)
    requires Faithful(c, o, stamps) && StampsAmong(steps, stamps) && NumbersConsistent(o)
    requires n !in c.blocks && o.block(n).Some?
    ensures ReadBlock(SavedThen(c, o, GetBlock(n), steps), later, o.block(n).value.number) == o.block(n)
  {
    SavedIsFaithful(c, o, GetBlock(n), steps, stamps);
    assert o.block(n).value.number in Next(Next(c, o, GetBlock(n)), o, Flush(|c.pending|)).blocks;
  }

  // ----- The two gateways -----

  function Client(o: Oracle): PC.Gateway {
    PC.Gateway(_ => None, _ => false, o.publication, (stampId, _) => o.stamp(stampId), o.block)
  }

  function Server(c: Cache, o: Oracle, cached: string -> Option<PC.Check>, signatureUsed: string -> bool): PC.Gateway {
    PC.Gateway(cached, signatureUsed, id => ReadPublication(c, o, id), (stampId, id) => ReadStamp(c, o, stampId, id),
               n => ReadBlock(c, o, n))
  }

  /**
   After every history of reads and delayed saves the server gateway answers as the client gateway does, for all
   transactions that are not themselves timestamp proofs. For those the cached timestamp proofs are never used.
   */
  lemma {:induction false} ServerAnswersLikeClient(o: Oracle, steps: seq<Step>, stamps: set<string>,
                                cached: string -> Option<PC.Check>, signatureUsed: string -> bool)
    requires NumbersConsistent(o) && StampsAmong(steps, stamps)
    ensures PC.SameData(Server(Run(EMPTY, o, steps), o, cached, signatureUsed), Client(o), stamps)
    ensures forall id :: id !in stamps ==> id !in Run(EMPTY, o, steps).proofs
  {
    RunIsFaithful(EMPTY, o, steps, stamps);
    BlocksAgreeIff(o);
  }

  ghost predicate StampsAgree(o: Oracle, stampId: string, id: string) {
    forall steps :: ReadStamp(Run(EMPTY, o, steps), o, stampId, id) == o.stamp(stampId)
  }

  /** A transaction that is itself a timestamp proof, of something else, can be given the wrong proofs. */
  lemma {:induction false} StampsAgreeIff(o: Oracle, stampId: string, id: string)
    ensures StampsAgree(o, stampId, id) <==> !o.stamp(id).Found? || o.stamp(id) == o.stamp(stampId)
  {
    if !o.stamp(id).Found? || o.stamp(id) == o.stamp(stampId) {
      forall steps ensures ReadStamp(Run(EMPTY, o, steps), o, stampId, id) == o.stamp(stampId) {
        var stamps := set step: Step | step in steps && step.SeeStamp? :: step.stampId;
        RunIsFaithful(EMPTY, o, steps, stamps);
      }
    } else {
      var steps := [SeeStamp(id), Flush(0)];
      assert steps[1..] == [Flush(0)] && steps[1..][1..] == [];
      var c := Next(EMPTY, o, SeeStamp(id));
      assert c.pending == [SaveProofs(id, o.stamp(id).value)];
      assert Run(EMPTY, o, steps) == Run(c, o, [Flush(0)]) == Next(c, o, Flush(0));
      assert ReadStamp(Run(EMPTY, o, steps), o, stampId, id) == o.stamp(id);
    }
  }

  /** The whole check through the server gateway, after any history, against the check of the client. */
  lemma {:induction false} ServerCheckAgainstClientCheck(w: PC.World, o: Oracle, steps: seq<Step>, stamps: set<string>,
                                      cached: string -> Option<PC.Check>, signatureUsed: string -> bool,
                                      txId: string, byPassDb: bool)
    requires NumbersConsistent(o) && StampsAmong(steps, stamps)
    requires var server := Server(Run(EMPTY, o, steps), o, cached, signatureUsed);
      PC.SuccessesEarned(w, server) && PC.Outside(server, txId, stamps)
    ensures var server := Server(Run(EMPTY, o, steps), o, cached, signatureUsed);
      PC.CheckDAProof(w, server, txId, byPassDb, true).result.Passed? <==>
        && PC.CheckDAProof(w, Client(o), txId, byPassDb, true).result.Passed?
        && !PC.HitsFailure(server, txId, byPassDb)
  {
    ServerAnswersLikeClient(o, steps, stamps, cached, signatureUsed);
    var server := Server(Run(EMPTY, o, steps), o, cached, signatureUsed);
    PC.CachedCheckIff(w, server, Client(o), stamps, txId, byPassDb);
  }

  // ----- A node over its whole run -----

  /** Cached data, cached verdicts, and verdicts whose saves are in flight. */
  datatype Node = Node(cache: Cache, verdicts: map<string, PC.Check>, saves: seq<PC.Save>)

  const NEW_NODE := Node(EMPTY, map[], [])

  datatype NodeStep =
    | Data(step: Step)
    | Checks(job: PC.Job, signatureUsed: string -> bool)
    | Saved(i: nat)

  function GatewayOf(n: Node, o: Oracle, signatureUsed: string -> bool): PC.Gateway {
    Server(n.cache, o, id => if id in n.verdicts then Some(n.verdicts[id]) else None, signatureUsed)
  }

  function NextNode(w: PC.World, o: Oracle, n: Node, step: NodeStep): Node {
    match step
    case Data(step) => n.(cache := Next(n.cache, o, step))
    case Checks(job, signatureUsed) =>
      n.(saves := n.saves + [PC.Save(job.id, PC.Verdict(w, GatewayOf(n, o, signatureUsed), job))])
    case Saved(i) =>
      if i < |n.saves| then
        n.(verdicts := n.verdicts[n.saves[i].id := n.saves[i].check], saves := n.saves[..i] + n.saves[i + 1..])
      else n
  }

  function RunNode(w: PC.World, o: Oracle, n: Node, steps: seq<NodeStep>): Node
    decreases |steps|
  {
    if steps == [] then n else RunNode(w, o, NextNode(w, o, n, steps[0]), steps[1..])
  }

  /** Timestamp proofs are those in `stamps`; jobs have the data of their transactions, which are no timestamp proofs. */
  ghost predicate LegalStep(w: PC.World, o: Oracle, stamps: set<string>, step: NodeStep) {
    match step
    case Data(step) => step.SeeStamp? ==> step.stampId in stamps
    case Checks(job, _) => PC.Genuine(w, Client(o), job) && PC.Outside(Client(o), job.id, stamps)
    case Saved(_) => true
  }

  /** A success the client confirms. */
  ghost predicate Confirmed(w: PC.World, o: Oracle, stamps: set<string>, id: string, check: PC.Check) {
    check.Passed? ==> PC.DeepValid(w, Client(o), id, true) && PC.Outside(Client(o), id, stamps)
  }

  ghost predicate Sound(w: PC.World, o: Oracle, stamps: set<string>, n: Node) {
    && Faithful(n.cache, o, stamps)
    && (forall id :: id in n.verdicts ==> Confirmed(w, o, stamps, id, n.verdicts[id]))
    && (forall save :: save in n.saves ==> Confirmed(w, o, stamps, save.id, save.check))
  }

  lemma {:induction false} FaithfulAnswers(n: Node, o: Oracle, stamps: set<string>, signatureUsed: string -> bool)
    requires NumbersConsistent(o) && Faithful(n.cache, o, stamps)
    ensures PC.SameData(GatewayOf(n, o, signatureUsed), Client(o), stamps)
  {
  }

  lemma {:induction false} DeepValidAgrees(w: PC.World, g: PC.Gateway, h: PC.Gateway, stamps: set<string>, id: string)
    requires PC.SameData(g, h, stamps) && PC.Outside(h, id, stamps)
    ensures PC.DeepValid(w, g, id, true) == PC.DeepValid(w, h, id, true)
    ensures PC.Outside(g, id, stamps)
  {
    PC.SameValidity(w, g, h, stamps);
  }

  lemma {:induction false} SoundIsEarned(w: PC.World, o: Oracle, stamps: set<string>, n: Node,
                                         signatureUsed: string -> bool)
    requires NumbersConsistent(o) && Sound(w, o, stamps, n)
    ensures PC.SuccessesEarned(w, GatewayOf(n, o, signatureUsed))
  {
    hide PC.DeepValid, PC.Outside, Faithful, PC.SameData;
    var g := GatewayOf(n, o, signatureUsed);
    FaithfulAnswers(n, o, stamps, signatureUsed);
    forall id | g.cached(id).Some? && g.cached(id).value.Passed? ensures PC.DeepValid(w, g, id, true) {
      assert Confirmed(w, o, stamps, id, n.verdicts[id]);
      DeepValidAgrees(w, g, Client(o), stamps, id);
    }
  }

  lemma {:induction false} CheckIsConfirmed(w: PC.World, o: Oracle, stamps: set<string>, n: Node, job: PC.Job,
                                            signatureUsed: string -> bool)
    requires NumbersConsistent(o) && Sound(w, o, stamps, n)
    requires PC.Genuine(w, Client(o), job) && PC.Outside(Client(o), job.id, stamps)
    ensures Confirmed(w, o, stamps, job.id, PC.Verdict(w, GatewayOf(n, o, signatureUsed), job))
  {
    var g := GatewayOf(n, o, signatureUsed);
    FaithfulAnswers(n, o, stamps, signatureUsed);
    SoundIsEarned(w, o, stamps, n, signatureUsed);
    if PC.Verdict(w, g, job).Passed? {
      assert PC.Genuine(w, g, job);
      hide PC.Verdict, PC.DeepValid, Sound, PC.SuccessesEarned;
      PC.SuccessIsEarned(w, g, job);
      DeepValidAgrees(w, g, Client(o), stamps, job.id);
    }
  }

  lemma {:induction false} StepIsSound(w: PC.World, o: Oracle, stamps: set<string>, n: Node, step: NodeStep)
    requires NumbersConsistent(o) && Sound(w, o, stamps, n) && LegalStep(w, o, stamps, step)
    ensures Sound(w, o, stamps, NextNode(w, o, n, step))
  {
    hide Faithful, Confirmed, Next, PC.Verdict, PC.Genuine, PC.Outside, NumbersConsistent;
    match step
    case Data(step) => DataStepIsFaithful(n.cache, o, step, stamps);
    case Checks(job, signatureUsed) => CheckIsConfirmed(w, o, stamps, n, job, signatureUsed);
    case Saved(i) =>
      if i < |n.saves| {
        assert n.saves[i] in n.saves;
      }
  }

  ghost predicate LegalRun(w: PC.World, o: Oracle, stamps: set<string>, steps: seq<NodeStep>) {
    forall step :: step in steps ==> LegalStep(w, o, stamps, step)
  }

  lemma {:induction false} RunIsSound(w: PC.World, o: Oracle, stamps: set<string>, n: Node, steps: seq<NodeStep>)
    requires NumbersConsistent(o) && Sound(w, o, stamps, n) && LegalRun(w, o, stamps, steps)
    ensures Sound(w, o, stamps, RunNode(w, o, n, steps))
    decreases |steps|
  {
    hide Sound, LegalStep, NextNode, NumbersConsistent;
    if steps != [] {
      assert steps[0] in steps;
      StepIsSound(w, o, stamps, n, steps[0]);
      RunIsSound(w, o, stamps, NextNode(w, o, n, steps[0]), steps[1..]);
    }
  }

  /**
   Over every run of a new node (reads, checks, retries, throws, and saves arriving late in any order), its check of
   any transaction accepts exactly what the client's check accepts, unless a cached failure answers first.
   */
  lemma {:induction false} NodeCheckAgainstClientCheck(w: PC.World, o: Oracle, stamps: set<string>,
                                                       steps: seq<NodeStep>, signatureUsed: string -> bool,
                                                       txId: string, byPassDb: bool)
    requires NumbersConsistent(o) && LegalRun(w, o, stamps, steps) && PC.Outside(Client(o), txId, stamps)
    ensures var server := GatewayOf(RunNode(w, o, NEW_NODE, steps), o, signatureUsed);
      PC.CheckDAProof(w, server, txId, byPassDb, true).result.Passed? <==>
        && PC.CheckDAProof(w, Client(o), txId, byPassDb, true).result.Passed?
        && !PC.HitsFailure(server, txId, byPassDb)
  {
    hide PC.CheckDAProof, PC.DeepValid, PC.HitsFailure, LegalRun, RunNode;
    var n := RunNode(w, o, NEW_NODE, steps);
    RunIsSound(w, o, stamps, NEW_NODE, steps);
    SoundIsEarned(w, o, stamps, n, signatureUsed);
    FaithfulAnswers(n, o, stamps, signatureUsed);
    PC.CachedCheckIff(w, GatewayOf(n, o, signatureUsed), Client(o), stamps, txId, byPassDb);
  }

  /** A saved verdict answers every later first check of the transaction, without a request; no other changes. */
  lemma {:induction false} VerdictIsKept(w: PC.World, o: Oracle, n: Node, job: PC.Job, signatureUsed: string -> bool,
                                         later: string -> bool, verifyPointer: bool)
    ensures var checked := NextNode(w, o, n, Checks(job, signatureUsed));
      var saved := NextNode(w, o, checked, Saved(|n.saves|));
      var verdict := PC.Verdict(w, GatewayOf(n, o, signatureUsed), job);
      && checked.verdicts == n.verdicts && checked.cache == n.cache == saved.cache && saved.saves == n.saves
      && saved.verdicts == n.verdicts[job.id := verdict]
      && PC.CheckDAProof(w, GatewayOf(saved, o, later), job.id, false, verifyPointer) == PC.Checked(verdict, [])
  {
    hide PC.Verdict;
    var checked := NextNode(w, o, n, Checks(job, signatureUsed));
    assert checked.saves[..|n.saves|] == n.saves && checked.saves[|n.saves| + 1..] == [];
  }

  /** A first check of a transaction the node does not know is refused for its signature exactly if that was used. */
  lemma {:induction false} SignatureRefusedIff(w: PC.World, o: Oracle, n: Node, job: PC.Job,
                                               signatureUsed: string -> bool)
    requires PC.NodeErrors(w) && !job.throws && !job.retry && job.id !in n.verdicts
    ensures PC.Verdict(w, GatewayOf(n, o, signatureUsed), job)
         == PC.Failed(ChainSignatureAlreadyUsed, Some(job.publication))
       <==> signatureUsed(job.publication.chainSignature)
  {
    var g := GatewayOf(n, o, signatureUsed);
    PC.BatchErrorIff(w, g, job);
    PC.NoOtherSignatureError(w, g, job.publication, job.stamp);
  }

  // ----- The program: a range of blocks -----

  function GetBlocks(numbers: seq<int>): seq<Step> {
    seq(|numbers|, i requires 0 <= i < |numbers| => GetBlock(numbers[i]))
  }

  lemma {:induction false} RunSnoc(c: Cache, o: Oracle, steps: seq<Step>, last: Step)
    ensures Run(c, o, steps + [last]) == Next(Run(c, o, steps), o, last)
    decreases |steps|
  {
    if steps == [] {
      assert steps + [last] == [last] && [last][1..] == [];
    } else {
      assert (steps + [last])[1..] == steps[1..] + [last];
      RunSnoc(Next(c, o, steps[0]), o, steps[1..], last);
    }
  }

  class DaProofGateway {
    var blocks: map<int, BlockInfo>
    var metadata: map<string, PC.Publication>
    var proofs: map<string, PC.Stamp>
    var pending: seq<Write>

    ghost function Contents(): Cache
      reads this
    {
      Cache(blocks, metadata, proofs, pending)
    }

    constructor ()
      ensures Contents() == EMPTY
    {
      blocks, metadata, proofs, pending := map[], map[], map[], [];
    }

    /** All blocks or none; what was fetched is saved later, also if another block cannot be read. */
    method GetBlockRange(o: Oracle, numbers: seq<int>) returns (r: Option<seq<BlockInfo>>)
      modifies `pending
      ensures Contents() == Run(old(Contents()), o, GetBlocks(numbers))
      ensures r.None? <==> exists i :: 0 <= i < |numbers| && ReadBlock(old(Contents()), o, numbers[i]).None?
      ensures r.Some? ==> |r.value| == |numbers|
      ensures r.Some? ==>
        forall i :: 0 <= i < |numbers| ==> ReadBlock(old(Contents()), o, numbers[i]) == Some(r.value[i])
    {
      var read: seq<BlockInfo>, failed := [], false;
      for i := 0 to |numbers|
        invariant Contents() == Run(old(Contents()), o, GetBlocks(numbers[..i]))
        invariant failed <==> exists k :: 0 <= k < i && ReadBlock(old(Contents()), o, numbers[k]).None?
        invariant !failed ==> |read| == i
        invariant !failed ==> forall k :: 0 <= k < i ==> ReadBlock(old(Contents()), o, numbers[k]) == Some(read[k])
      {
        var n := numbers[i];
        assert GetBlocks(numbers[..i + 1]) == GetBlocks(numbers[..i]) + [GetBlock(n)];
        RunSnoc(old(Contents()), o, GetBlocks(numbers[..i]), GetBlock(n));
        if n in blocks {
          read := read + [blocks[n]];
        } else {
          var block := o.block(n);
          if block.None? {
            failed := true;
          } else {
            pending := pending + [SaveBlock(block.value)];
            read := read + [block.value];
          }
        }
      }
      assert numbers[..|numbers|] == numbers;
      r := if failed then None else Some(read);
    }
  }
}
