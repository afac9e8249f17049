/**
 The check of one data availability proof, and of the publication it points to.

 The checker reads through a gateway. The server gateway may know earlier verdicts; the client gateway knows
 none. Everything outside the program (Bundlr, the EVM node, signature recovery) is a function in `World` or
 in `Gateway`, so a check is a function of its inputs.
 */
module ProofChecker {
  import opened Prelude
  import opened Models
  import opened Text
  import opened HexIds
  import opened ClosestBlock

  datatype ActionType = PostCreated | CommentCreated | MirrorCreated | QuoteCreated | OtherAction(name: string)

  datatype Pointer = Pointer(location: string, onDa: bool)

  datatype Publication = Publication(
    signature: string,               // the submitter's; empty when it is missing
    action: ActionType,
    paramsOf: set<ActionType>,       // which `...Params` objects the event has; they mark version 2
    dataAvailabilityId: string,
    publicationId: string,
    eventProfileId: string,
    eventPubId: string,
    eventTimestamp: int,
    blockTimestamp: int,
    deadline: int,
    blockNumber: int,
    nonce: int,
    chainSignature: string,
    stampId: string,                 // the transaction of the timestamp proofs
    stampTimestamp: int,
    pointer: Option<Pointer>,
    payload: string                  // all other fields of the document
  )

  datatype Stamp = Stamp(action: ActionType, dataAvailabilityId: string)

  datatype Fetch<+T> = Found(value: T) | Missing | TimedOut

  datatype Profile = Profile(nonce: int, owner: string, dispatcher: string, approvedExecutor: bool, pubCount: nat)

  datatype World = World(
    validSubmitter: string -> bool,
    extractAddress: Publication -> string,
    stampSignatureValid: Publication -> bool,
    ownerOf: string -> Fetch<string>,
    whoSigned: Publication -> Result<string, ValidatorError>,
    profile: (Publication, string) -> Result<Profile, ValidatorError>,
    simulation: Publication -> Result<nat, ValidatorError>,
    pubCount: Publication -> Result<nat, ValidatorError>,
    blockHashExists: Publication -> Result<bool, ValidatorError>,
    eventMatches: (Publication, nat) -> bool
  )

  datatype Check = Passed(publication: Publication) | Failed(error: ValidatorError, context: Option<Publication>)

  datatype Gateway = Gateway(
    cached: string -> Option<Check>,
    signatureUsed: string -> bool,
    publication: string -> Fetch<Publication>,
    stamp: (string, string) -> Fetch<Stamp>,       // timestamp transaction, data transaction
    block: int -> Option<BlockInfo>
  )

  datatype Kind = PostV1 | PostV2 | CommentV1 | CommentV2 | MirrorV1 | MirrorV2 | QuoteV2

  const ARWEAVE := "ar://"

  // ----- The verifiers of the publication kinds -----

  function KindOf(pub: Publication): Option<Kind> {
    var v2 := pub.action in pub.paramsOf;
    match pub.action
    case PostCreated => Some(if v2 then PostV2 else PostV1)
    case CommentCreated => Some(if v2 then CommentV2 else CommentV1)
    case MirrorCreated => Some(if v2 then MirrorV2 else MirrorV1)
    case QuoteCreated => if v2 then Some(QuoteV2) else None
    case OtherAction(_) => None
  }

  predicate IsPost(kind: Kind) { kind.PostV1? || kind.PostV2? }

  predicate IsV1(kind: Kind) { kind.PostV1? || kind.CommentV1? || kind.MirrorV1? }

  function VerifySigner(w: World, pub: Publication, kind: Kind): Result<nat, ValidatorError> {
    match w.whoSigned(pub)
    case Err(e) => Err(e)
    case Ok(who) =>
      match w.profile(pub, who)
      case Err(e) => Err(e)
      case Ok(details) =>
        if details.nonce != pub.nonce then Err(PublicationNonceInvalid)
        else if IsV1(kind) && details.dispatcher != who && details.owner != who then Err(PublicationSignerNotAllowed)
        else if !IsV1(kind) && details.owner != who && !details.approvedExecutor then Err(PublicationSignerNotAllowed)
        else Ok(details.pubCount)
  }

  /** The simulation against the expected number; `gone` is whether a mismatch counts as a reorganisation. */
  function SimulationVerdict(w: World, pub: Publication, kind: Kind, gone: bool): Result<nat, ValidatorError> {
    if kind.PostV2? && w.whoSigned(pub).Err? then Err(w.whoSigned(pub).error)
    else if w.simulation(pub).Err? then Err(w.simulation(pub).error)
    else if w.pubCount(pub).Err? then Err(w.pubCount(pub).error)
    else if w.pubCount(pub).value + 1 == w.simulation(pub).value then Ok(w.simulation(pub).value)
    else if gone then Err(PotentialReorg)
    else Err(SimulationFailed)
  }

  /** In JavaScript an object is true, whatever it holds. */
  predicate Truthy(result: Result<bool, ValidatorError>) {
    match result
    case Ok(_) => true
    case Err(_) => true
  }

  /** On a mismatch the program asks whether the block still exists, and looks at the result object itself. */
  function VerifySimulation(w: World, pub: Publication, kind: Kind): Result<nat, ValidatorError> {
    SimulationVerdict(w, pub, kind, !Truthy(w.blockHashExists(pub)))
  }

  function VerifyEvent(w: World, pub: Publication, count: nat): Result<(), ValidatorError> {
    if w.eventMatches(pub, count) then Ok(()) else Err(EventMismatch)
  }

  function CheckPost(w: World, pub: Publication, kind: Kind): Result<(), ValidatorError> {
    if pub.pointer.Some? then Err(InvalidPointerSetNotNeeded)
    else
      match VerifySimulation(w, pub, kind)
      case Err(e) => Err(e)
      case Ok(simulated) => VerifyEvent(w, pub, simulated)
  }

  // ----- The checker -----

  /** `fetched` lists the transactions whose publication was requested, in order. */
  datatype Checked = Checked(result: Check, fetched: seq<string>)

  /** Comments, mirrors and quotes. The pointer is checked with the cache but without following its own pointer. */
  function CheckPointing(w: World, g: Gateway, pub: Publication, kind: Kind, verifyPointer: bool)
    : (Result<(), ValidatorError>, seq<string>)
    decreases verifyPointer, 0
  {
    if pub.pointer.None? then (Err(PublicationNoPointer), [])
    else if !pub.pointer.value.onDa then (Err(PublicationNoneDa), [])
    else
      var nested :=
        if verifyPointer then CheckDAProof(w, g, pub.pointer.value.location, false, false) else Checked(Passed(pub), []);
      if nested.result.Failed? then (Err(PointerFailedVerification), nested.fetched)
      else
        match VerifySigner(w, pub, kind)
        case Err(e) => (Err(e), nested.fetched)
        case Ok(count) => (VerifyEvent(w, pub, count), nested.fetched)
  }

  function CheckDAPublication(w: World, g: Gateway, pub: Publication, verifyPointer: bool)
    : (Result<(), ValidatorError>, seq<string>)
    decreases verifyPointer, 1
  {
    var kind := KindOf(pub);
    if kind.None? then (Err(PublicationNotRecognized), [])
    else if GeneratePublicationId(pub.eventProfileId, pub.eventPubId, pub.dataAvailabilityId) != pub.publicationId then
      (Err(GeneratedPublicationIdMismatch), [])
    else if IsPost(kind.value) then (CheckPost(w, pub, kind.value), [])
    else CheckPointing(w, g, pub, kind.value, verifyPointer)
  }

  /** What is checked before the kind of publication matters. */
  function CheckEnvelope(w: World, g: Gateway, pub: Publication, stamp: Stamp): Result<(), ValidatorError> {
    if pub.signature == "" then Err(NoSignatureSubmitter)
    else if !w.validSubmitter(w.extractAddress(pub)) then Err(InvalidSignatureSubmitter)
    else if !w.stampSignatureValid(pub) then Err(TimestampProofInvalidSignature)
    else if stamp.action != pub.action then Err(TimestampProofInvalidType)
    else if stamp.dataAvailabilityId != pub.dataAvailabilityId then Err(TimestampProofInvalidDaId)
    else if pub.eventTimestamp != pub.blockTimestamp then Err(InvalidEventTimestamp)
    else if pub.deadline != pub.blockTimestamp then Err(InvalidTypedDataDeadlineTimestamp)
    else ValidateChosenBlock(g.block, pub.blockNumber, pub.stampTimestamp)
  }

  function CheckFetched(w: World, g: Gateway, pub: Publication, stamp: Stamp, verifyPointer: bool): Checked
    decreases verifyPointer, 2
  {
    var envelope := CheckEnvelope(w, g, pub, stamp);
    if envelope.Err? then Checked(Failed(envelope.error, Some(pub)), [])
    else
      var (result, fetched) := CheckDAPublication(w, g, pub, verifyPointer);
      Checked(if result.Err? then Failed(result.error, Some(pub)) else Passed(pub), fetched)
  }

  function CheckDAProof(w: World, g: Gateway, txId: string, byPassDb: bool, verifyPointer: bool): Checked
    decreases verifyPointer, 3
  {
    if !byPassDb && g.cached(txId).Some? then Checked(g.cached(txId).value, [])
    else
      var id := RemoveFirst(txId, ARWEAVE);
      match g.publication(id)
      case Missing => Checked(Failed(InvalidTxId, None), [id])
      case TimedOut => Checked(Failed(CanNotConnectToBundlr, None), [id])
      case Found(pub) =>
        match g.stamp(pub.stampId, id)
        case Missing => Checked(Failed(InvalidTxId, None), [id])
        case TimedOut => Checked(Failed(CanNotConnectToBundlr, None), [id])
        case Found(stamp) =>
          match w.ownerOf(pub.stampId)
          case TimedOut => Checked(Failed(CanNotConnectToBundlr, None), [id])
          case Missing => Checked(Failed(TimestampProofNotSubmitter, Some(pub)), [id])
          case Found(owner) =>
            if !w.validSubmitter(owner) then Checked(Failed(TimestampProofNotSubmitter, Some(pub)), [id])
            else
              var rest := CheckFetched(w, g, pub, stamp, verifyPointer);
              Checked(rest.result, [id] + rest.fetched)
  }

  /** The check of a batch, for which publication, submitter and timestamp proofs are already at hand. */
  function CheckWithMetadata(w: World, g: Gateway, txId: string, pub: Publication, submitter: string, stamp: Stamp,
                             byPassDb: bool, verifyPointer: bool): Checked {
    if !byPassDb && g.cached(txId).Some? then Checked(g.cached(txId).value, [])
    else if !byPassDb && g.signatureUsed(pub.chainSignature) then
      Checked(Failed(ChainSignatureAlreadyUsed, Some(pub)), [])
    else if !w.validSubmitter(submitter) then Checked(Failed(TimestampProofNotSubmitter, Some(pub)), [])
    else CheckFetched(w, g, pub, stamp, verifyPointer)
  }

  // ----- Validity, stated flatly -----

  /** The event carries the parameters that mark version 2. */
  ghost predicate Version2(pub: Publication) {
    pub.action in pub.paramsOf
  }

  /** Comments and mirrors, and quotes of version 2: there is no other version of quotes. */
  ghost predicate NeedsPointer(pub: Publication) {
    pub.action.CommentCreated? || pub.action.MirrorCreated? || (pub.action.QuoteCreated? && Version2(pub))
  }

  ghost predicate Recognised(pub: Publication) {
    pub.action.PostCreated? || NeedsPointer(pub)
  }

  /** The owner may always sign; the dispatcher in version 1, an approved executor in version 2. */
  ghost predicate SignerAllowed(w: World, pub: Publication) {
    && w.whoSigned(pub).Ok?
    && var who := w.whoSigned(pub).value;
    && w.profile(pub, who).Ok?
    && var details := w.profile(pub, who).value;
    && details.nonce == pub.nonce
    && (who == details.owner || if Version2(pub) then details.approvedExecutor else who == details.dispatcher)
    && w.eventMatches(pub, details.pubCount)
  }

  ghost predicate Simulates(w: World, pub: Publication) {
    && (Version2(pub) ==> w.whoSigned(pub).Ok?)
    && w.simulation(pub).Ok? && w.pubCount(pub).Ok?
    && w.simulation(pub).value == w.pubCount(pub).value + 1
    && w.eventMatches(pub, w.simulation(pub).value)
  }

  /** Everything about a publication except what it points to. */
  ghost predicate FlatValid(w: World, g: Gateway, pub: Publication, stamp: Stamp) {
    && EnvelopeValid(w, g, pub, stamp)
    && Recognised(pub)
    && IdMatches(pub)
    && (pub.action.PostCreated? ==> pub.pointer.None? && Simulates(w, pub))
    && (NeedsPointer(pub) ==> pub.pointer.Some? && pub.pointer.value.onDa && SignerAllowed(w, pub))
  }

  /** The dispatch on action and version. */
  lemma KindIs(pub: Publication)
    ensures KindOf(pub).Some? <==> Recognised(pub)
    ensures KindOf(pub).Some? ==>
      var kind := KindOf(pub).value;
      && (IsPost(kind) <==> pub.action.PostCreated?)
      && (IsV1(kind) <==> !Version2(pub))
      && (kind.PostV2? <==> pub.action.PostCreated? && Version2(pub))
  {
  }

  ghost predicate Retrievable(w: World, g: Gateway, id: string) {
    && g.publication(id).Found?
    && g.stamp(g.publication(id).value.stampId, id).Found?
    && w.ownerOf(g.publication(id).value.stampId).Found?
    && w.validSubmitter(w.ownerOf(g.publication(id).value.stampId).value)
  }

  /** The transaction can be retrieved and what it holds is valid, its pointer aside. */
  ghost predicate FlatValidTx(w: World, g: Gateway, id: string) {
    && Retrievable(w, g, id)
    && var pub := g.publication(id).value;
    FlatValid(w, g, pub, g.stamp(pub.stampId, id).value)
  }

  /** What the check of a pointer amounts to: an earlier verdict if there is one, validity otherwise. */
  ghost predicate PointerHolds(w: World, g: Gateway, location: string) {
    if g.cached(location).Some? then g.cached(location).value.Passed?
    else FlatValidTx(w, g, RemoveFirst(location, ARWEAVE))
  }

  /** Submitter, timestamp proofs and timestamps. */
  ghost predicate Submitted(w: World, pub: Publication, stamp: Stamp) {
    && pub.signature != "" && w.validSubmitter(w.extractAddress(pub)) && w.stampSignatureValid(pub)
    && stamp == Stamp(pub.action, pub.dataAvailabilityId)
    && pub.eventTimestamp == pub.blockTimestamp == pub.deadline
  }

  ghost predicate EnvelopeValid(w: World, g: Gateway, pub: Publication, stamp: Stamp) {
    && Submitted(w, pub, stamp)
    && ValidateChosenBlock(g.block, pub.blockNumber, pub.stampTimestamp).Ok?
  }

  ghost predicate IdMatches(pub: Publication) {
    pub.publicationId == GeneratePublicationId(pub.eventProfileId, pub.eventPubId, pub.dataAvailabilityId)
  }

  lemma EnvelopeIff(w: World, g: Gateway, pub: Publication, stamp: Stamp)
    ensures CheckEnvelope(w, g, pub, stamp).Ok? <==> EnvelopeValid(w, g, pub, stamp)
  {
  }

  lemma {:induction false} CheckPostIff(w: World, pub: Publication, kind: Kind)
    requires KindOf(pub) == Some(kind) && pub.action.PostCreated?
    ensures CheckPost(w, pub, kind).Ok? <==> pub.pointer.None? && Simulates(w, pub)
  {
    KindIs(pub);
  }

  lemma {:induction false} SignerIff(w: World, pub: Publication, kind: Kind)
    requires KindOf(pub) == Some(kind)
    ensures SignerAllowed(w, pub) <==>
      VerifySigner(w, pub, kind).Ok? && VerifyEvent(w, pub, VerifySigner(w, pub, kind).value).Ok?
  {
    KindIs(pub);
  }

  lemma {:induction false} CheckPointingIff(w: World, g: Gateway, pub: Publication, kind: Kind, verifyPointer: bool)
    requires KindOf(pub) == Some(kind)
    ensures CheckPointing(w, g, pub, kind, verifyPointer).0.Ok? <==>
      && pub.pointer.Some? && pub.pointer.value.onDa && SignerAllowed(w, pub)
      && (verifyPointer ==> PointerHolds(w, g, pub.pointer.value.location))
    decreases verifyPointer, 0
  {
    SignerIff(w, pub, kind);
    if verifyPointer && pub.pointer.Some? {
      CheckDAProofIff(w, g, pub.pointer.value.location, false, false);
    }
  }

  lemma {:induction false} CheckFetchedIff(w: World, g: Gateway, pub: Publication, stamp: Stamp, verifyPointer: bool)
    ensures CheckFetched(w, g, pub, stamp, verifyPointer).result.Passed? <==>
      && FlatValid(w, g, pub, stamp)
      && (verifyPointer && NeedsPointer(pub) ==> PointerHolds(w, g, pub.pointer.value.location))
    decreases verifyPointer, 1
  {
    EnvelopeIff(w, g, pub, stamp);
    KindIs(pub);
    if pub.action.PostCreated? {
      CheckPostIff(w, pub, KindOf(pub).value);
    } else if NeedsPointer(pub) {
      CheckPointingIff(w, g, pub, KindOf(pub).value, verifyPointer);
    }
  }

  /**
   For every pointer graph: a transaction passes exactly if an earlier verdict says so or, without one, it is
   valid and (for comments, mirrors and quotes) the publication it points to holds.
   */
  lemma {:induction false} CheckDAProofIff(w: World, g: Gateway, txId: string, byPassDb: bool, verifyPointer: bool)
    ensures var id := RemoveFirst(txId, ARWEAVE);
      CheckDAProof(w, g, txId, byPassDb, verifyPointer).result.Passed? <==>
        if !byPassDb && g.cached(txId).Some? then g.cached(txId).value.Passed?
        else
          && FlatValidTx(w, g, id)
          && var pub := g.publication(id).value;
          (verifyPointer && NeedsPointer(pub) ==> PointerHolds(w, g, pub.pointer.value.location))
    decreases verifyPointer, 2
  {
    var id := RemoveFirst(txId, ARWEAVE);
    if Retrievable(w, g, id) {
      var pub := g.publication(id).value;
      CheckFetchedIff(w, g, pub, g.stamp(pub.stampId, id).value, verifyPointer);
    }
  }

  /** The client gateway, or any other that knows no verdicts. */
  ghost predicate Uncached(g: Gateway) {
    forall id :: g.cached(id).None?
  }

  /** Without a cache: the transaction is valid and so is, if it has one, the publication it points to. */
  ghost predicate DeepValid(w: World, g: Gateway, txId: string, verifyPointer: bool) {
    var id := RemoveFirst(txId, ARWEAVE);
    && FlatValidTx(w, g, id)
    && var pub := g.publication(id).value;
    (verifyPointer && NeedsPointer(pub) ==> FlatValidTx(w, g, RemoveFirst(pub.pointer.value.location, ARWEAVE)))
  }

  lemma {:induction false} UncachedCheckIff(w: World, g: Gateway, txId: string, byPassDb: bool, verifyPointer: bool)
    requires Uncached(g)
    ensures CheckDAProof(w, g, txId, byPassDb, verifyPointer).result.Passed? <==> DeepValid(w, g, txId, verifyPointer)
  {
    CheckDAProofIff(w, g, txId, byPassDb, verifyPointer);
  }

  /**
   However the publications point to each other, a check requests at most two of them: the transaction and,
   if pointers are verified, the one it points to.
   */
  lemma {:induction false} AtMostTwoFetches(w: World, g: Gateway, txId: string, byPassDb: bool, verifyPointer: bool)
    ensures var fetched := CheckDAProof(w, g, txId, byPassDb, verifyPointer).fetched;
      && |fetched| <= (if verifyPointer then 2 else 1)
      && (fetched != [] ==> fetched[0] == RemoveFirst(txId, ARWEAVE))
      && (|fetched| == 2 ==>
            && g.publication(fetched[0]).Found? && g.publication(fetched[0]).value.pointer.Some?
            && fetched[1] == RemoveFirst(g.publication(fetched[0]).value.pointer.value.location, ARWEAVE))
    decreases verifyPointer, 1
  {
    var id := RemoveFirst(txId, ARWEAVE);
    if Retrievable(w, g, id) {
      var pub := g.publication(id).value;
      var nested := CheckFetched(w, g, pub, g.stamp(pub.stampId, id).value, verifyPointer).fetched;
      if nested != [] {
        assert CheckDAPublication(w, g, pub, verifyPointer).1 == nested;
        PointingFetches(w, g, pub, KindOf(pub).value, verifyPointer);
      }
    }
  }

  lemma {:induction false} PointingFetches(w: World, g: Gateway, pub: Publication, kind: Kind, verifyPointer: bool)
    ensures var fetched := CheckPointing(w, g, pub, kind, verifyPointer).1;
      && (!verifyPointer ==> fetched == [])
      && |fetched| <= 1
      && (fetched != [] ==> pub.pointer.Some? && fetched == [RemoveFirst(pub.pointer.value.location, ARWEAVE)])
    decreases verifyPointer, 0
  {
    if verifyPointer && pub.pointer.Some? {
      AtMostTwoFetches(w, g, pub.pointer.value.location, false, false);
    }
  }

  /** Which transactions a check requests: itself, and its pointer if it gets there and knows no verdict for it. */
  lemma {:induction false} FetchesExactly(w: World, g: Gateway, txId: string, byPassDb: bool, verifyPointer: bool)
    ensures var id := RemoveFirst(txId, ARWEAVE);
      var follows := verifyPointer && FollowsPointer(w, g, id);
      CheckDAProof(w, g, txId, byPassDb, verifyPointer).fetched ==
        if !byPassDb && g.cached(txId).Some? then []
        else [id] + if follows then [RemoveFirst(g.publication(id).value.pointer.value.location, ARWEAVE)] else []
    decreases verifyPointer, 2
  {
    var id := RemoveFirst(txId, ARWEAVE);
    hide CheckFetched, FlatValid, ReachesPointer;
    if Retrievable(w, g, id) {
      var pub := g.publication(id).value;
      FetchedFollows(w, g, pub, g.stamp(pub.stampId, id).value, verifyPointer);
    }
  }

  lemma {:induction false} FetchedFollows(w: World, g: Gateway, pub: Publication, stamp: Stamp, verifyPointer: bool)
    ensures CheckFetched(w, g, pub, stamp, verifyPointer).fetched ==
      if verifyPointer && ReachesPointer(w, g, pub, stamp) && g.cached(pub.pointer.value.location).None?
      then [RemoveFirst(pub.pointer.value.location, ARWEAVE)] else []
    decreases verifyPointer, 1
  {
    EnvelopeIff(w, g, pub, stamp);
    KindIs(pub);
    hide CheckEnvelope, EnvelopeValid, CheckPointing, CheckPost, KindOf, IsPost;
    if NeedsPointer(pub) {
      PointingFollows(w, g, pub, KindOf(pub).value, verifyPointer);
    }
  }

  lemma {:induction false} PointingFollows(w: World, g: Gateway, pub: Publication, kind: Kind, verifyPointer: bool)
    ensures CheckPointing(w, g, pub, kind, verifyPointer).1 ==
      if verifyPointer && pub.pointer.Some? && pub.pointer.value.onDa && g.cached(pub.pointer.value.location).None?
      then [RemoveFirst(pub.pointer.value.location, ARWEAVE)] else []
    decreases verifyPointer, 0
  {
    hide VerifySigner, VerifyEvent;
    if verifyPointer && pub.pointer.Some? {
      FetchesExactly(w, g, pub.pointer.value.location, false, false);
    }
  }

  ghost predicate FollowsPointer(w: World, g: Gateway, id: string) {
    && Retrievable(w, g, id)
    && var pub := g.publication(id).value;
    && ReachesPointer(w, g, pub, g.stamp(pub.stampId, id).value)
    && g.cached(pub.pointer.value.location).None?
  }

  // ----- The cached checker refines the uncached one -----

  /** The same data, as far as transactions outside `apart` are asked for; verdicts may differ. */
  ghost predicate SameData(g: Gateway, h: Gateway, apart: set<string>) {
    && (forall id :: g.publication(id) == h.publication(id))
    && (forall stampId, id :: id !in apart ==> g.stamp(stampId, id) == h.stamp(stampId, id))
    && (forall n :: g.block(n) == h.block(n))
  }

  /** Neither the transaction nor what it points to is in `apart`. */
  ghost predicate Outside(g: Gateway, txId: string, apart: set<string>) {
    var id := RemoveFirst(txId, ARWEAVE);
    && id !in apart
    && (g.publication(id).Found? && g.publication(id).value.pointer.Some? ==>
          RemoveFirst(g.publication(id).value.pointer.value.location, ARWEAVE) !in apart)
  }

  /** A cached success was earned: a full check without a cache succeeds too. */
  ghost predicate SuccessesEarned(w: World, g: Gateway) {
    forall id :: g.cached(id).Some? && g.cached(id).value.Passed? ==> DeepValid(w, g, id, true)
  }

  /** The check would be answered by a cached failure, for the transaction or for what it points to. */
  ghost predicate HitsFailure(g: Gateway, txId: string, byPassDb: bool) {
    var id := RemoveFirst(txId, ARWEAVE);
    if !byPassDb && g.cached(txId).Some? then g.cached(txId).value.Failed?
    else
      && g.publication(id).Found? && NeedsPointer(g.publication(id).value)
      && g.publication(id).value.pointer.Some?
      && var location := g.publication(id).value.pointer.value.location;
      g.cached(location).Some? && g.cached(location).value.Failed?
  }

  lemma SameValidity(w: World, g: Gateway, h: Gateway, apart: set<string>)
    requires SameData(g, h, apart)
    ensures forall id :: id !in apart ==> FlatValidTx(w, g, id) == FlatValidTx(w, h, id)
  {
  }

  /**
   With earned successes the cache can only turn an acceptance into a rejection, and does so exactly when the
   check runs into a cached failure: a signature used before, an error that has gone since, or a pointer whose
   own pointer was bad (which an uncached check of the pointer does not look at).
   */
  lemma {:induction false} CachedCheckIff(w: World, server: Gateway, client: Gateway, apart: set<string>,
                                          txId: string, byPassDb: bool)
    requires SameData(server, client, apart) && Uncached(client) && SuccessesEarned(w, server)
    requires Outside(server, txId, apart)
    ensures CheckDAProof(w, server, txId, byPassDb, true).result.Passed? <==>
      && CheckDAProof(w, client, txId, byPassDb, true).result.Passed?
      && !HitsFailure(server, txId, byPassDb)
  {
    SameValidity(w, server, client, apart);
    CheckDAProofIff(w, server, txId, byPassDb, true);
    UncachedCheckIff(w, client, txId, byPassDb, true);
  }

  /** Verdicts are stored under bare ids, so a pointer written with `ar://` never meets the cache. */
  lemma {:induction false} PrefixedPointerMissesCache(w: World, server: Gateway, client: Gateway, apart: set<string>,
                                                      txId: string)
    requires SameData(server, client, apart) && Uncached(client) && Outside(server, txId, apart)
    requires forall id :: ARWEAVE <= id ==> server.cached(id).None?
    requires var pub := server.publication(RemoveFirst(txId, ARWEAVE));
      pub.Found? && pub.value.pointer.Some? ==> ARWEAVE <= pub.value.pointer.value.location
    ensures CheckDAProof(w, server, txId, true, true).result.Passed?
       <==> CheckDAProof(w, client, txId, true, true).result.Passed?
  {
    SameValidity(w, server, client, apart);
    CheckDAProofIff(w, server, txId, true, true);
    CheckDAProofIff(w, client, txId, true, true);
  }

  /**
   It matters whether a pointer is written with `ar://` exactly if what it points to is valid by itself and has a
   cached failure: the bare location is answered by the failure, the prefixed one by a check.
   */
  lemma {:induction false} PrefixMattersIff(w: World, g: Gateway, id: string)
    requires SuccessesEarned(w, g) && g.cached(ARWEAVE + id).None? && RemoveFirst(id, ARWEAVE) == id
    ensures PointerHolds(w, g, ARWEAVE + id) != PointerHolds(w, g, id) <==>
      g.cached(id).Some? && g.cached(id).value.Failed? && FlatValidTx(w, g, id)
    ensures CheckDAProof(w, g, ARWEAVE + id, false, false).result.Passed? <==> PointerHolds(w, g, ARWEAVE + id)
    ensures CheckDAProof(w, g, id, false, false).result.Passed? <==> PointerHolds(w, g, id)
  {
    assert RemoveFirst(ARWEAVE + id, ARWEAVE) == id;
    CheckDAProofIff(w, g, ARWEAVE + id, false, false);
    CheckDAProofIff(w, g, id, false, false);
  }

  // ----- Successes are earned -----

  /** One check of a batch, with the data it was given; a check that throws is saved as unknown. */
  datatype Job = Job(id: string, publication: Publication, submitter: string, stamp: Stamp, retry: bool, throws: bool)

  /** The batch has the data of the transaction itself. */
  ghost predicate Genuine(w: World, g: Gateway, job: Job) {
    && RemoveFirst(job.id, ARWEAVE) == job.id
    && g.publication(job.id) == Found(job.publication)
    && g.stamp(job.publication.stampId, job.id) == Found(job.stamp)
    && w.ownerOf(job.publication.stampId) == Found(job.submitter)
  }

  function Verdict(w: World, g: Gateway, job: Job): Check {
    if job.throws then Failed(Unknown, None)
    else CheckWithMetadata(w, g, job.id, job.publication, job.submitter, job.stamp, job.retry, true).result
  }

  function Remember(g: Gateway, id: string, check: Check): Gateway {
    g.(cached := x => if x == id then Some(check) else g.cached(x))
  }

  /** A verdict whose save is in flight. */
  datatype Save = Save(id: string, check: Check)

  datatype Server = Server(gateway: Gateway, saves: seq<Save>)

  datatype Event = Checks(job: Job) | Saved(i: nat)

  /** A check starts its save; any save in flight may be the next to reach the database. */
  function NextServer(w: World, s: Server, event: Event): Server {
    match event
    case Checks(job) => s.(saves := s.saves + [Save(job.id, Verdict(w, s.gateway, job))])
    case Saved(i) =>
      if i < |s.saves| then
        Server(Remember(s.gateway, s.saves[i].id, s.saves[i].check), s.saves[..i] + s.saves[i + 1..])
      else s
  }

  function AfterEvents(w: World, s: Server, events: seq<Event>): Server
    decreases |events|
  {
    if events == [] then s else AfterEvents(w, NextServer(w, s, events[0]), events[1..])
  }

  /** Cached or on its way to the cache: a success is one a full check without a cache confirms. */
  ghost predicate AllEarned(w: World, s: Server) {
    && SuccessesEarned(w, s.gateway)
    && forall save :: save in s.saves && save.check.Passed? ==> DeepValid(w, s.gateway, save.id, true)
  }

  ghost predicate AllGenuine(w: World, g: Gateway, events: seq<Event>) {
    forall event :: event in events && event.Checks? ==> Genuine(w, g, event.job)
  }

  /** A success that used cached successes for its pointer is still one a full check without a cache confirms. */
  lemma {:induction false} SuccessIsEarned(w: World, g: Gateway, job: Job)
    requires SuccessesEarned(w, g) && Genuine(w, g, job) && Verdict(w, g, job).Passed?
    ensures DeepValid(w, g, job.id, true)
  {
    if job.retry || g.cached(job.id).None? {
      CheckFetchedIff(w, g, job.publication, job.stamp, true);
    }
  }

  lemma {:induction false} RememberKeepsValidity(w: World, g: Gateway, id: string, check: Check)
    ensures forall x :: DeepValid(w, Remember(g, id, check), x, true) == DeepValid(w, g, x, true)
  {
    var h := Remember(g, id, check);
    assert forall x :: FlatValidTx(w, h, x) == FlatValidTx(w, g, x);
  }

  lemma {:induction false} EventKeepsEarned(w: World, s: Server, event: Event)
    requires AllEarned(w, s) && (event.Checks? ==> Genuine(w, s.gateway, event.job))
    ensures AllEarned(w, NextServer(w, s, event))
  {
    match event
    case Checks(job) =>
      if Verdict(w, s.gateway, job).Passed? {
        SuccessIsEarned(w, s.gateway, job);
      }
    case Saved(i) =>
      hide DeepValid;
      if i < |s.saves| {
        assert s.saves[i] in s.saves;
        RememberKeepsValidity(w, s.gateway, s.saves[i].id, s.saves[i].check);
      }
  }

  /**
   Over every run of checks, retries and throws, their saves arriving late and in any order, each cached success
   is one a full check without a cache confirms.
   */
  lemma {:induction false} EverySuccessIsEarned(w: World, s: Server, events: seq<Event>)
    requires AllEarned(w, s) && AllGenuine(w, s.gateway, events)
    ensures AllEarned(w, AfterEvents(w, s, events))
    decreases |events|
  {
    if events != [] {
      var next := NextServer(w, s, events[0]);
      assert events[0] in events;
      EventKeepsEarned(w, s, events[0]);
      assert forall job :: Genuine(w, next.gateway, job) == Genuine(w, s.gateway, job);
      assert AllGenuine(w, next.gateway, events[1..]);
      EverySuccessIsEarned(w, next, events[1..]);
    }
  }

  /** A saved verdict answers the next first check of its transaction; nothing else changes. */
  lemma {:induction false} SavedVerdictAnswers(w: World, s: Server, job: Job, verifyPointer: bool)
    ensures var checked := NextServer(w, s, Checks(job));
      var saved := NextServer(w, checked, Saved(|s.saves|));
      var verdict := Verdict(w, s.gateway, job);
      && checked.gateway == s.gateway && saved.saves == s.saves
      && CheckDAProof(w, saved.gateway, job.id, false, verifyPointer) == Checked(verdict, [])
      && (forall id :: id != job.id ==> saved.gateway.cached(id) == s.gateway.cached(id))
      && SameData(saved.gateway, s.gateway, {}) && saved.gateway.signatureUsed == s.gateway.signatureUsed
  {
    hide Verdict;
    var checked := NextServer(w, s, Checks(job));
    assert checked.saves[..|s.saves|] == s.saves && checked.saves[|s.saves| + 1..] == [];
  }

  // ----- Two further facts -----

  /** With the data the gateway would have fetched, the batch check and the single check give the same result. */
  lemma MetadataCheckIsTheCheck(w: World, g: Gateway, id: string, pub: Publication, submitter: string, stamp: Stamp,
                                verifyPointer: bool)
    requires RemoveFirst(id, ARWEAVE) == id
    requires g.publication(id) == Found(pub) && g.stamp(pub.stampId, id) == Found(stamp)
    requires w.ownerOf(pub.stampId) == Found(submitter)
    ensures CheckWithMetadata(w, g, id, pub, submitter, stamp, true, verifyPointer).result
         == CheckDAProof(w, g, id, true, verifyPointer).result
  {
  }

  /** A first check in a batch: what it takes to succeed. */
  lemma {:induction false} FirstCheckIff(w: World, g: Gateway, id: string, pub: Publication, submitter: string,
                                         stamp: Stamp)
    ensures CheckWithMetadata(w, g, id, pub, submitter, stamp, false, true).result.Passed? <==>
      if g.cached(id).Some? then g.cached(id).value.Passed?
      else
        && !g.signatureUsed(pub.chainSignature) && w.validSubmitter(submitter) && FlatValid(w, g, pub, stamp)
        && (NeedsPointer(pub) ==> PointerHolds(w, g, pub.pointer.value.location))
  {
    CheckFetchedIff(w, g, pub, stamp, true);
  }

  /** The error for a reorganised chain is never reported by the checker itself. */
  lemma {:induction false} ReorgIsNeverReported(w: World, g: Gateway, txId: string, byPassDb: bool, verifyPointer: bool)
    requires Uncached(g)
    requires forall pub :: w.simulation(pub) != Err(PotentialReorg) && w.pubCount(pub) != Err(PotentialReorg)
    requires forall pub :: w.whoSigned(pub) != Err(PotentialReorg)
    requires forall pub, who :: w.profile(pub, who) != Err(PotentialReorg)
    ensures CheckDAProof(w, g, txId, byPassDb, verifyPointer).result.Failed? ==>
      CheckDAProof(w, g, txId, byPassDb, verifyPointer).result.error != PotentialReorg
  {
    var id := RemoveFirst(txId, ARWEAVE);
    if Retrievable(w, g, id) {
      var pub := g.publication(id).value;
      var stamp := g.stamp(pub.stampId, id).value;
      var (result, _) := CheckDAPublication(w, g, pub, verifyPointer);
      assert result != Err(PotentialReorg) by {
        if KindOf(pub).Some? {
          assert CheckPointing(w, g, pub, KindOf(pub).value, verifyPointer).0 != Err(PotentialReorg);
          assert CheckPost(w, pub, KindOf(pub).value) != Err(PotentialReorg);
        }
      }
      assert CheckEnvelope(w, g, pub, stamp) != Err(PotentialReorg);
      assert CheckFetched(w, g, pub, stamp, verifyPointer).result != Failed(PotentialReorg, Some(pub));
    }
  }

  /**
   The test for a reorganised chain that the program means to make differs from the one it makes exactly on a
   mismatch for which the node answers that the block is gone.
   */
  lemma ReorgIsMissedIff(w: World, pub: Publication, kind: Kind)
    ensures var returned := VerifySimulation(w, pub, kind);
      var intended := SimulationVerdict(w, pub, kind, w.blockHashExists(pub) == Ok(false));
      && (returned != intended <==>
            && (kind.PostV2? ==> w.whoSigned(pub).Ok?)
            && w.simulation(pub).Ok? && w.pubCount(pub).Ok? && w.simulation(pub).value != w.pubCount(pub).value + 1
            && w.blockHashExists(pub) == Ok(false))
      && (returned != intended ==> returned == Err(SimulationFailed) && intended == Err(PotentialReorg))
    ensures !ShouldRetry(SimulationFailed) && !ShouldRetry(PotentialReorg)
  {
  }

  // ----- Which failures are tried again -----

  predicate Retriable<T>(r: Result<T, ValidatorError>) {
    r.Err? && ShouldRetry(r.error)
  }

  ghost predicate Unreadable(g: Gateway, number: int) {
    g.block(number - 1).None? || g.block(number).None? || g.block(number + 1).None?
  }

  /** The errors the EVM gateways and the signature recovery report. */
  ghost predicate NodeErrors(w: World) {
    var errors := {InvalidFormattedTypedData, SimulationNodeCouldNotRun, DataCantBeReadFromNode};
    && (forall pub :: w.whoSigned(pub).Err? ==> w.whoSigned(pub).error in errors)
    && (forall pub, who :: w.profile(pub, who).Err? ==> w.profile(pub, who).error in errors)
    && (forall pub :: w.simulation(pub).Err? ==> w.simulation(pub).error in errors)
    && (forall pub :: w.pubCount(pub).Err? ==> w.pubCount(pub).error in errors)
  }

  /** The node did not answer. */
  ghost predicate NodeFailure<T>(r: Result<T, ValidatorError>) {
    r == Err(DataCantBeReadFromNode) || r == Err(SimulationNodeCouldNotRun)
  }

  /** The profile cannot be read; a signature that cannot be recovered is no such case. */
  ghost predicate SignerUnreadable(w: World, pub: Publication) {
    || NodeFailure(w.whoSigned(pub))
    || (w.whoSigned(pub).Ok? && NodeFailure(w.profile(pub, w.whoSigned(pub).value)))
  }

  ghost predicate SimulationUnreadable(w: World, pub: Publication) {
    if Version2(pub) && w.whoSigned(pub).Err? then NodeFailure(w.whoSigned(pub))
    else NodeFailure(w.simulation(pub)) || (w.simulation(pub).Ok? && NodeFailure(w.pubCount(pub)))
  }

  /** The publication is in order up to a read that fails: of the blocks, the signer or the simulation. */
  ghost predicate Stuck(w: World, g: Gateway, pub: Publication, stamp: Stamp, verifyPointer: bool) {
    && Submitted(w, pub, stamp)
    && (Unreadable(g, pub.blockNumber) ||
        (EnvelopeValid(w, g, pub, stamp) && pub.action.PostCreated? && IdMatches(pub) &&
         pub.pointer.None? && SimulationUnreadable(w, pub)) ||
        (ReachesPointer(w, g, pub, stamp) && SignerUnreadable(w, pub) &&
         (verifyPointer ==> PointerHolds(w, g, pub.pointer.value.location))))
  }

  /** The publication points to another one and is in order up to the check of that. */
  ghost predicate ReachesPointer(w: World, g: Gateway, pub: Publication, stamp: Stamp) {
    EnvelopeValid(w, g, pub, stamp) && NeedsPointer(pub) && IdMatches(pub) && pub.pointer.Some? && pub.pointer.value.onDa
  }

  /** The same for a transaction: what fails may also be a read of the transaction or of its timestamp proofs. */
  ghost predicate StuckTx(w: World, g: Gateway, id: string, verifyPointer: bool) {
    || g.publication(id).TimedOut?
    || (g.publication(id).Found? &&
        var pub := g.publication(id).value;
        || g.stamp(pub.stampId, id).TimedOut?
        || (g.stamp(pub.stampId, id).Found? &&
            (w.ownerOf(pub.stampId).TimedOut? ||
             (Retrievable(w, g, id) && Stuck(w, g, pub, g.stamp(pub.stampId, id).value, verifyPointer)))))
  }

  lemma {:induction false} UnreadableIff(w: World, g: Gateway, pub: Publication, stamp: Stamp)
    ensures Retriable(CheckEnvelope(w, g, pub, stamp)) <==> Submitted(w, pub, stamp) && Unreadable(g, pub.blockNumber)
  {
    var verdict := ValidateChosenBlock(g.block, pub.blockNumber, pub.stampTimestamp);
    assert Retriable(verdict) <==> Unreadable(g, pub.blockNumber);
  }

  lemma {:induction false} PostRetriableIff(w: World, pub: Publication, kind: Kind)
    requires NodeErrors(w) && KindOf(pub) == Some(kind) && pub.action.PostCreated?
    ensures Retriable(CheckPost(w, pub, kind)) <==> pub.pointer.None? && SimulationUnreadable(w, pub)
  {
    KindIs(pub);
    assert Retriable(VerifySimulation(w, pub, kind)) <==> SimulationUnreadable(w, pub);
  }

  lemma {:induction false} PointingRetriableIff(w: World, g: Gateway, pub: Publication, kind: Kind, verifyPointer: bool)
    requires NodeErrors(w) && KindOf(pub) == Some(kind)
    ensures Retriable(CheckPointing(w, g, pub, kind, verifyPointer).0) <==>
      && pub.pointer.Some? && pub.pointer.value.onDa && SignerUnreadable(w, pub)
      && (verifyPointer ==> PointerHolds(w, g, pub.pointer.value.location))
  {
    assert Retriable(VerifySigner(w, pub, kind)) <==> SignerUnreadable(w, pub);
    if verifyPointer && pub.pointer.Some? {
      CheckDAProofIff(w, g, pub.pointer.value.location, false, false);
    }
  }

  lemma {:induction false} FetchedRetriableIff(w: World, g: Gateway, pub: Publication, stamp: Stamp,
                                               verifyPointer: bool)
    requires NodeErrors(w)
    ensures var result := CheckFetched(w, g, pub, stamp, verifyPointer).result;
      result.Failed? && ShouldRetry(result.error) <==> Stuck(w, g, pub, stamp, verifyPointer)
  {
    EnvelopeIff(w, g, pub, stamp);
    UnreadableIff(w, g, pub, stamp);
    KindIs(pub);
    if pub.action.PostCreated? {
      PostRetriableIff(w, pub, KindOf(pub).value);
    } else if NeedsPointer(pub) {
      PointingRetriableIff(w, g, pub, KindOf(pub).value, verifyPointer);
    }
  }

  /** A failure is tried again exactly if the check got stuck at a read: a wrong publication never is. */
  lemma {:induction false} RetriableIff(w: World, g: Gateway, txId: string, byPassDb: bool, verifyPointer: bool)
    requires NodeErrors(w) && (byPassDb || g.cached(txId).None?)
    ensures var result := CheckDAProof(w, g, txId, byPassDb, verifyPointer).result;
      result.Failed? && ShouldRetry(result.error) <==> StuckTx(w, g, RemoveFirst(txId, ARWEAVE), verifyPointer)
  {
    var id := RemoveFirst(txId, ARWEAVE);
    if Retrievable(w, g, id) {
      var pub := g.publication(id).value;
      FetchedRetriableIff(w, g, pub, g.stamp(pub.stampId, id).value, verifyPointer);
    }
  }

  /**
   The same for a check of a batch, as it is saved and queued: it is retried exactly if it throws, if it repeats a
   cached failure of that kind, or if it gets past cache, signature and submitter and is stuck at a read.
   */
  lemma {:induction false} JobRetriableIff(w: World, g: Gateway, job: Job)
    requires NodeErrors(w)
    ensures var verdict := Verdict(w, g, job);
      verdict.Failed? && ShouldRetry(verdict.error) <==>
        if job.throws then true
        else if !job.retry && g.cached(job.id).Some? then
          g.cached(job.id).value.Failed? && Temporary(g.cached(job.id).value.error)
        else
          && (job.retry || !g.signatureUsed(job.publication.chainSignature))
          && w.validSubmitter(job.submitter) && Stuck(w, g, job.publication, job.stamp, true)
  {
    FetchedRetriableIff(w, g, job.publication, job.stamp, true);
  }

  // ----- Pointers that cannot be read -----

  lemma {:induction false} PointingBlamesPointerIff(w: World, g: Gateway, pub: Publication, kind: Kind)
    requires NodeErrors(w)
    ensures CheckPointing(w, g, pub, kind, true).0 == Err(PointerFailedVerification) <==>
      pub.pointer.Some? && pub.pointer.value.onDa && !PointerHolds(w, g, pub.pointer.value.location)
  {
    if pub.pointer.Some? {
      CheckDAProofIff(w, g, pub.pointer.value.location, false, false);
    }
  }

  lemma {:induction false} FetchedBlamesPointerIff(w: World, g: Gateway, pub: Publication, stamp: Stamp)
    requires NodeErrors(w)
    ensures CheckFetched(w, g, pub, stamp, true).result == Failed(PointerFailedVerification, Some(pub)) <==>
      ReachesPointer(w, g, pub, stamp) && !PointerHolds(w, g, pub.pointer.value.location)
  {
    EnvelopeIff(w, g, pub, stamp);
    KindIs(pub);
    if KindOf(pub).Some? {
      PointingBlamesPointerIff(w, g, pub, KindOf(pub).value);
      assert CheckPost(w, pub, KindOf(pub).value) != Err(PointerFailedVerification);
    }
    assert CheckEnvelope(w, g, pub, stamp) != Err(PointerFailedVerification);
  }

  /** The pointer is blamed exactly if the publication is in order up to its pointer and the pointer does not hold. */
  lemma {:induction false} PointerBlamedIff(w: World, g: Gateway, txId: string, byPassDb: bool)
    requires NodeErrors(w) && (byPassDb || g.cached(txId).None?)
    ensures var id := RemoveFirst(txId, ARWEAVE);
      var result := CheckDAProof(w, g, txId, byPassDb, true).result;
      result.Failed? && result.error == PointerFailedVerification <==>
        && Retrievable(w, g, id)
        && var pub := g.publication(id).value;
           ReachesPointer(w, g, pub, g.stamp(pub.stampId, id).value) && !PointerHolds(w, g, pub.pointer.value.location)
  {
    var id := RemoveFirst(txId, ARWEAVE);
    if Retrievable(w, g, id) {
      var pub := g.publication(id).value;
      FetchedBlamesPointerIff(w, g, pub, g.stamp(pub.stampId, id).value);
    }
  }

  /** What the check of a pointer returns is an error worth a retry. */
  ghost predicate PointerStuck(w: World, g: Gateway, location: string) {
    if g.cached(location).Some? then g.cached(location).value.Failed? && Temporary(g.cached(location).value.error)
    else StuckTx(w, g, RemoveFirst(location, ARWEAVE), false)
  }

  /**
   An error worth a retry, met on the pointer, is turned into a final one exactly if the publication is in order up
   to its pointer, and the check of the pointer got stuck at a read or is answered by a cached error of that kind.
   */
  lemma {:induction false} StuckPointerIsFinalIff(w: World, g: Gateway, txId: string, byPassDb: bool)
    requires NodeErrors(w) && (byPassDb || g.cached(txId).None?)
    requires g.publication(RemoveFirst(txId, ARWEAVE)).Found?
    requires g.publication(RemoveFirst(txId, ARWEAVE)).value.pointer.Some?
    ensures var id := RemoveFirst(txId, ARWEAVE);
      var pub := g.publication(id).value;
      var result := CheckDAProof(w, g, txId, byPassDb, true).result;
      var nested := CheckDAProof(w, g, pub.pointer.value.location, false, false).result;
      && (nested.Failed? && ShouldRetry(nested.error) <==> PointerStuck(w, g, pub.pointer.value.location))
      && (result.Failed? && result.error == PointerFailedVerification && nested.Failed? && ShouldRetry(nested.error) <==>
            && Retrievable(w, g, id) && ReachesPointer(w, g, pub, g.stamp(pub.stampId, id).value)
            && PointerStuck(w, g, pub.pointer.value.location))
    ensures !ShouldRetry(PointerFailedVerification)
  {
    var location := g.publication(RemoveFirst(txId, ARWEAVE)).value.pointer.value.location;
    PointerBlamedIff(w, g, txId, byPassDb);
    CheckDAProofIff(w, g, location, false, false);
    if g.cached(location).None? {
      RetriableIff(w, g, location, false, false);
    }
  }

  // ----- Which error is reported -----

  /** Each error of the envelope is reported exactly if its condition is the first that fails. */
  lemma {:induction false} EnvelopeErrorIff(w: World, g: Gateway, pub: Publication, stamp: Stamp)
    ensures var r := CheckEnvelope(w, g, pub, stamp);
      var signed := pub.signature != "";
      var submitted := signed && w.validSubmitter(w.extractAddress(pub));
      var stamped := submitted && w.stampSignatureValid(pub);
      var typed := stamped && stamp.action == pub.action;
      var matched := typed && stamp.dataAvailabilityId == pub.dataAvailabilityId;
      var timed := matched && pub.eventTimestamp == pub.blockTimestamp;
      && (r == Err(NoSignatureSubmitter) <==> !signed)
      && (r == Err(InvalidSignatureSubmitter) <==> signed && !submitted)
      && (r == Err(TimestampProofInvalidSignature) <==> submitted && !stamped)
      && (r == Err(TimestampProofInvalidType) <==> stamped && !typed)
      && (r == Err(TimestampProofInvalidDaId) <==> typed && !matched)
      && (r == Err(InvalidEventTimestamp) <==> matched && !timed)
      && (r == Err(InvalidTypedDataDeadlineTimestamp) <==> timed && pub.deadline != pub.blockTimestamp)
      && (r == Err(BlockCantBeReadFromNode) <==> Submitted(w, pub, stamp) && Unreadable(g, pub.blockNumber))
      && (r == Err(NotClosestBlock) <==>
            Submitted(w, pub, stamp) && !Unreadable(g, pub.blockNumber) && !EnvelopeValid(w, g, pub, stamp))
  {
  }

  /** A publication in a good envelope: what its own content is refused for. */
  lemma {:induction false} ContentErrorIff(w: World, g: Gateway, pub: Publication, stamp: Stamp, verifyPointer: bool)
    requires NodeErrors(w) && EnvelopeValid(w, g, pub, stamp)
    ensures var r := CheckFetched(w, g, pub, stamp, verifyPointer).result;
      var pointing := IdMatches(pub) && NeedsPointer(pub);
      var reached := ReachesPointer(w, g, pub, stamp) &&
                     (verifyPointer ==> PointerHolds(w, g, pub.pointer.value.location));
      var profiled := w.whoSigned(pub).Ok? && w.profile(pub, w.whoSigned(pub).value).Ok?;
      && (r == Failed(PublicationNotRecognized, Some(pub)) <==> !Recognised(pub))
      && (r == Failed(GeneratedPublicationIdMismatch, Some(pub)) <==> Recognised(pub) && !IdMatches(pub))
      && (r == Failed(InvalidPointerSetNotNeeded, Some(pub)) <==>
            IdMatches(pub) && pub.action.PostCreated? && pub.pointer.Some?)
      && (r == Failed(PublicationNoPointer, Some(pub)) <==> pointing && pub.pointer.None?)
      && (r == Failed(PublicationNoneDa, Some(pub)) <==> pointing && pub.pointer.Some? && !pub.pointer.value.onDa)
      && (r == Failed(PublicationNonceInvalid, Some(pub)) <==>
            reached && profiled && w.profile(pub, w.whoSigned(pub).value).value.nonce != pub.nonce)
      && (r == Failed(PublicationSignerNotAllowed, Some(pub)) <==>
            && reached && profiled
            && var (who, details) := (w.whoSigned(pub).value, w.profile(pub, w.whoSigned(pub).value).value);
               && details.nonce == pub.nonce && who != details.owner
               && if Version2(pub) then !details.approvedExecutor else who != details.dispatcher)
      && (reached && w.whoSigned(pub).Err? ==> r == Failed(w.whoSigned(pub).error, Some(pub)))
      && (reached && w.whoSigned(pub).Ok? && !profiled ==>
            r == Failed(w.profile(pub, w.whoSigned(pub).value).error, Some(pub)))
  {
    KindIs(pub);
    EnvelopeIff(w, g, pub, stamp);
    if NeedsPointer(pub) {
      PointingErrorIff(w, g, pub, KindOf(pub).value, verifyPointer);
    } else if pub.action.PostCreated? {
      PostErrorIff(w, pub, KindOf(pub).value);
    }
  }

  lemma {:induction false} PointingErrorIff(w: World, g: Gateway, pub: Publication, kind: Kind, verifyPointer: bool)
    requires NodeErrors(w) && KindOf(pub) == Some(kind)
    ensures var r := CheckPointing(w, g, pub, kind, verifyPointer).0;
      var reached := pub.pointer.Some? && pub.pointer.value.onDa &&
                     (verifyPointer ==> PointerHolds(w, g, pub.pointer.value.location));
      var profiled := w.whoSigned(pub).Ok? && w.profile(pub, w.whoSigned(pub).value).Ok?;
      && (r == Err(PublicationNoPointer) <==> pub.pointer.None?)
      && (r == Err(PublicationNoneDa) <==> pub.pointer.Some? && !pub.pointer.value.onDa)
      && (r == Err(PublicationNonceInvalid) <==>
            reached && profiled && w.profile(pub, w.whoSigned(pub).value).value.nonce != pub.nonce)
      && (r == Err(PublicationSignerNotAllowed) <==>
            && reached && profiled
            && var (who, details) := (w.whoSigned(pub).value, w.profile(pub, w.whoSigned(pub).value).value);
               && details.nonce == pub.nonce && who != details.owner
               && if Version2(pub) then !details.approvedExecutor else who != details.dispatcher)
      && (reached && w.whoSigned(pub).Err? ==> r == Err(w.whoSigned(pub).error))
      && (reached && w.whoSigned(pub).Ok? && !profiled ==> r == Err(w.profile(pub, w.whoSigned(pub).value).error))
      && (r.Err? ==> r.error !in {PublicationNotRecognized, GeneratedPublicationIdMismatch, InvalidPointerSetNotNeeded})
  {
    KindIs(pub);
    if verifyPointer && pub.pointer.Some? {
      CheckDAProofIff(w, g, pub.pointer.value.location, false, false);
    }
  }

  lemma {:induction false} PostErrorIff(w: World, pub: Publication, kind: Kind)
    requires NodeErrors(w)
    ensures var r := CheckPost(w, pub, kind);
      && (r == Err(InvalidPointerSetNotNeeded) <==> pub.pointer.Some?)
      && (r.Err? && pub.pointer.None? ==>
            r.error in {SimulationFailed, EventMismatch, InvalidFormattedTypedData, SimulationNodeCouldNotRun,
                        DataCantBeReadFromNode})
      && (r == Err(SimulationFailed) <==>
            && pub.pointer.None? && (kind.PostV2? ==> w.whoSigned(pub).Ok?)
            && w.simulation(pub).Ok? && w.pubCount(pub).Ok?
            && w.simulation(pub).value != w.pubCount(pub).value + 1)
      && (r == Err(EventMismatch) <==>
            && pub.pointer.None? && (kind.PostV2? ==> w.whoSigned(pub).Ok?)
            && w.simulation(pub).Ok? && w.pubCount(pub).Ok?
            && w.simulation(pub).value == w.pubCount(pub).value + 1
            && !w.eventMatches(pub, w.simulation(pub).value))
      && (pub.pointer.None? && kind.PostV2? && w.whoSigned(pub).Err? ==> r == Err(w.whoSigned(pub).error))
      && (pub.pointer.None? && (kind.PostV2? ==> w.whoSigned(pub).Ok?) ==>
            && (w.simulation(pub).Err? ==> r == Err(w.simulation(pub).error))
            && (w.simulation(pub).Ok? && w.pubCount(pub).Err? ==> r == Err(w.pubCount(pub).error)))
  {
  }

  /** What a transaction is refused for before its content is looked at, by the single check. */
  lemma {:induction false} RetrievalErrorIff(w: World, g: Gateway, txId: string, verifyPointer: bool)
    ensures var id := RemoveFirst(txId, ARWEAVE);
      var r := CheckDAProof(w, g, txId, true, verifyPointer).result;
      var found := g.publication(id).Found?;
      var stampId := if found then g.publication(id).value.stampId else "";
      var stamped := found && g.stamp(stampId, id).Found?;
      && (r == Failed(InvalidTxId, None) <==> g.publication(id).Missing? || (found && g.stamp(stampId, id).Missing?))
      && (r == Failed(CanNotConnectToBundlr, None) <==>
            || g.publication(id).TimedOut? || (found && g.stamp(stampId, id).TimedOut?)
            || (stamped && w.ownerOf(stampId).TimedOut?))
      && (stamped && !w.ownerOf(stampId).TimedOut? && !Retrievable(w, g, id) ==>
            r == Failed(TimestampProofNotSubmitter, Some(g.publication(id).value)))
      && (Retrievable(w, g, id) ==>
            r == CheckFetched(w, g, g.publication(id).value, g.stamp(stampId, id).value, verifyPointer).result)
  {
  }

  lemma {:induction false} NoOtherSignatureError(w: World, g: Gateway, pub: Publication, stamp: Stamp)
    requires NodeErrors(w)
    ensures CheckFetched(w, g, pub, stamp, true).result != Failed(ChainSignatureAlreadyUsed, Some(pub))
  {
    var kind := KindOf(pub);
    if kind.Some? {
      assert CheckPointing(w, g, pub, kind.value, true).0 != Err(ChainSignatureAlreadyUsed);
      assert CheckPost(w, pub, kind.value) != Err(ChainSignatureAlreadyUsed);
    }
    assert CheckEnvelope(w, g, pub, stamp) != Err(ChainSignatureAlreadyUsed);
  }

  /** What a check of a batch concludes before it looks at the publication itself. */
  lemma {:induction false} BatchErrorIff(w: World, g: Gateway, job: Job)
    ensures var r := Verdict(w, g, job);
      var known := !job.retry && g.cached(job.id).Some?;
      var used := !job.retry && g.signatureUsed(job.publication.chainSignature);
      if job.throws then r == Failed(Unknown, None)
      else if known then r == g.cached(job.id).value
      else
      && (used ==> r == Failed(ChainSignatureAlreadyUsed, Some(job.publication)))
      && (!used && !w.validSubmitter(job.submitter) ==> r == Failed(TimestampProofNotSubmitter, Some(job.publication)))
      && (!used && w.validSubmitter(job.submitter) ==>
            r == CheckFetched(w, g, job.publication, job.stamp, true).result)
  {
  }
}
