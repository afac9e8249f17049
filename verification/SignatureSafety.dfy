/**
 One success per chain signature.

 A first check reads the verdict cache and the used signatures; a retry skips both. Saving a verdict is not
 awaited, and it is two writes: first the signature (only if the verdict carries its publication), then the
 verdict. The state machine below interleaves checks, retries and single writes in any order.
 */
module SignatureSafety {
  import opened Prelude
  import opened Models

  type TxId = string
  type Signature = string
  type Verdict = Result<(), ValidatorError>

  /** A saved verdict, with or without the publication it is about. */
  datatype TxResult = TxResult(verdict: Verdict, publication: bool)

  /** A save in flight; `signed` once its signature write is done. */
  datatype Save = Save(tx: TxId, result: TxResult, signed: bool)

  /** A transaction waiting for its retry; `known` if the check that queued it had the publication. */
  datatype Retry = Retry(tx: TxId, known: bool)

  datatype Node = Node(cache: map<TxId, TxResult>, signatures: set<Signature>, saves: seq<Save>, retries: seq<Retry>)

  const INITIAL := Node(map[], {}, [], [])

  datatype Step =
    | FirstCheck(tx: TxId, verdict: Verdict)   // `verdict`: what the proof check would conclude
    | FirstThrows(tx: TxId)                    // the check throws or takes longer than five seconds
    | RetryCheck(i: nat, verdict: Verdict)
    | RetryThrows(i: nat)
    | Write(i: nat)                            // the next write of save number `i`

  function Queued(tx: TxId, result: TxResult): seq<Retry> {
    if result.verdict.Err? && ShouldRetry(result.verdict.error) then [Retry(tx, result.publication)] else []
  }

  function FirstResult(s: Node, signature: TxId -> Signature, tx: TxId, verdict: Verdict): TxResult {
    if tx in s.cache then s.cache[tx]
    else if signature(tx) in s.signatures then TxResult(Err(ChainSignatureAlreadyUsed), true)
    else TxResult(verdict, true)
  }

  function SaveLater(s: Node, tx: TxId, result: TxResult): Node {
    s.(saves := s.saves + [Save(tx, result, false)])
  }

  predicate Enabled(s: Node, step: Step) {
    match step
    case FirstCheck(_, _) => true
    case FirstThrows(_) => true
    case RetryCheck(i, _) => i < |s.retries|
    case RetryThrows(i) => i < |s.retries|
    case Write(i) => i < |s.saves|
  }

  function Next(s: Node, signature: TxId -> Signature, step: Step): Node
    requires Enabled(s, step)
  {
    match step
    case FirstCheck(tx, verdict) =>
      var result := FirstResult(s, signature, tx, verdict);
      SaveLater(s, tx, result).(retries := s.retries + Queued(tx, result))
    case FirstThrows(tx) =>
      var result := TxResult(Err(Unknown), false);
      SaveLater(s, tx, result).(retries := s.retries + Queued(tx, result))
    case RetryCheck(i, verdict) =>
      SaveLater(s, s.retries[i].tx, TxResult(verdict, true)).(retries := s.retries[..i] + s.retries[i + 1..])
    case RetryThrows(i) =>
      SaveLater(s, s.retries[i].tx, TxResult(Err(Unknown), false)).(retries := s.retries[..i] + s.retries[i + 1..])
    case Write(i) =>
      var save := s.saves[i];
      if save.result.publication && !save.signed then
        s.(signatures := s.signatures + {signature(save.tx)}, saves := s.saves[i := save.(signed := true)])
      else
        s.(cache := s.cache[save.tx := save.result], saves := s.saves[..i] + s.saves[i + 1..])
  }

  // ----- Candidates: what can still end as a success without another look at the signatures -----

  /** A cached success, a success whose save is in flight, or a waiting retry of a check that had the publication. */
  ghost predicate Candidate(s: Node, tx: TxId) {
    || (tx in s.cache && s.cache[tx].verdict.Ok?)
    || (exists save :: save in s.saves && save.tx == tx && save.result.verdict.Ok?)
    || Retry(tx, true) in s.retries
  }

  ghost predicate OneCandidate(s: Node, signature: TxId -> Signature) {
    forall t, u :: Candidate(s, t) && Candidate(s, u) && t != u ==> signature(t) != signature(u)
  }

  predicate WorthRetry(verdict: Verdict) {
    verdict.Err? && ShouldRetry(verdict.error)
  }

  /** Another transaction with this signature has a success, or a retry that will not look at the signatures. */
  ghost predicate Rival(s: Node, signature: TxId -> Signature, tx: TxId) {
    exists u :: u != tx && signature(u) == signature(tx) && Candidate(s, u)
  }

  /** The same as far as it is not on record yet: a success in flight, or a retry whose signature is in flight. */
  ghost predicate RivalInFlight(s: Node, signature: TxId -> Signature, tx: TxId) {
    || (exists save :: save in s.saves && save.tx != tx && signature(save.tx) == signature(tx) && save.result.verdict.Ok?)
    || (exists r :: r in s.retries && r.known && r.tx != tx && signature(r.tx) == signature(tx))
  }

  /**
   The steps that give a signature a second candidate. A first check of an unknown transaction with an unrecorded
   signature; one that finds a cached failure worth a retry, which is queued again; a retry that succeeds.
   */
  ghost predicate Breaks(s: Node, signature: TxId -> Signature, step: Step)
    requires Enabled(s, step)
  {
    match step
    case FirstCheck(tx, verdict) =>
      if tx in s.cache then WorthRetry(s.cache[tx].verdict) && s.cache[tx].publication && Rival(s, signature, tx)
      else signature(tx) !in s.signatures && (verdict.Ok? || WorthRetry(verdict)) && RivalInFlight(s, signature, tx)
    case RetryCheck(i, verdict) => verdict.Ok? && !s.retries[i].known && Rival(s, signature, s.retries[i].tx)
    case _ => false
  }

  // ----- The invariant -----

  /** Success, or a failure that any further check of the transaction would queue for a retry. */
  predicate Live(result: TxResult) {
    result.publication && (result.verdict.Ok? || ShouldRetry(result.verdict.error))
  }

  ghost predicate Saving(s: Node, tx: TxId) {
    exists save :: save in s.saves && save.tx == tx && save.result.publication
  }

  /** The transaction is a success or can still become one. */
  ghost predicate Holds(s: Node, tx: TxId) {
    || (tx in s.cache && Live(s.cache[tx]))
    || (exists save :: save in s.saves && save.tx == tx && Live(save.result))
    || Retry(tx, true) in s.retries
  }

  ghost predicate OneHolder(s: Node, signature: TxId -> Signature) {
    forall t, u :: Holds(s, t) && Holds(s, u) && t != u ==> signature(t) != signature(u)
  }

  /**
   The signature of a verdict cached with its publication is on record, at every point between the writes of a
   save; a holder's signature is on record or its save is in flight.
   */
  ghost predicate Recorded(s: Node, signature: TxId -> Signature) {
    && (forall t :: t in s.cache && s.cache[t].publication ==> signature(t) in s.signatures)
    && (forall save :: save in s.saves && save.signed ==> signature(save.tx) in s.signatures)
    && (forall t :: Holds(s, t) ==> signature(t) in s.signatures || Saving(s, t))
    && (forall t :: t in s.cache && s.cache[t].verdict.Ok? ==> s.cache[t].publication)
    && (forall save :: save in s.saves && save.result.verdict.Ok? ==> save.result.publication)
  }

  ghost predicate Inv(s: Node, signature: TxId -> Signature) {
    Recorded(s, signature) && OneHolder(s, signature)
  }

  /** The transaction a step turns into a holder, if any. */
  function NewHolder(s: Node, signature: TxId -> Signature, step: Step): Option<TxId>
    requires Enabled(s, step)
  {
    match step
    case FirstCheck(tx, verdict) =>
      if tx !in s.cache && signature(tx) !in s.signatures && Live(TxResult(verdict, true)) then Some(tx) else None
    case RetryCheck(i, verdict) => if Live(TxResult(verdict, true)) then Some(s.retries[i].tx) else None
    case _ => None
  }

  lemma Removed<T>(xs: seq<T>, i: nat, x: T)
    requires i < |xs|
    ensures x in xs[..i] + xs[i + 1..] ==> x in xs
    ensures x in xs && x != xs[i] ==> x in xs[..i] + xs[i + 1..]
  {
    if x in xs && x != xs[i] {
      var j :| 0 <= j < |xs| && xs[j] == x;
      assert j < i ==> xs[..i][j] == x;
      assert j > i ==> xs[i + 1..][j - i - 1] == x;
    }
  }

  lemma {:induction false} HoldersAreOld(s: Node, signature: TxId -> Signature, step: Step, u: TxId)
    requires Enabled(s, step) && Holds(Next(s, signature, step), u)
    ensures Holds(s, u) || NewHolder(s, signature, step) == Some(u)
  {
    var t := Next(s, signature, step);
    match step
    case FirstCheck(tx, verdict) =>
    case FirstThrows(tx) =>
    case RetryCheck(i, verdict) => Removed(s.retries, i, Retry(u, true));
    case RetryThrows(i) => Removed(s.retries, i, Retry(u, true));
    case Write(i) =>
  }

  /** A save with a publication stays in flight until its signature is on record. */
  lemma {:induction false} SavingKept(s: Node, signature: TxId -> Signature, step: Step, u: TxId)
    requires Recorded(s, signature) && Enabled(s, step) && Saving(s, u)
    ensures var t := Next(s, signature, step); signature(u) in t.signatures || Saving(t, u)
  {
    var t := Next(s, signature, step);
    var save :| save in s.saves && save.tx == u && save.result.publication;
    if step.Write? {
      if s.saves[step.i] != save {
        Removed(s.saves, step.i, save);
        var j :| 0 <= j < |s.saves| && s.saves[j] == save;
        assert |t.saves| == |s.saves| ==> t.saves[j] == save;
      }
    } else {
      assert save in t.saves;
    }
  }

  lemma {:induction false} RecordedKept(s: Node, signature: TxId -> Signature, step: Step)
    requires Recorded(s, signature) && Enabled(s, step)
    ensures Recorded(Next(s, signature, step), signature)
  {
    var t := Next(s, signature, step);
    forall u | Holds(t, u) ensures signature(u) in t.signatures || Saving(t, u) {
      HoldersAreOld(s, signature, step, u);
      if Holds(s, u) {
        if signature(u) !in s.signatures {
          SavingKept(s, signature, step, u);
        }
      } else {
        assert t.saves[|s.saves|] in t.saves;
      }
    }
  }

  /** A step adds at most its new holder, and keeps uniqueness if no other holder has the same signature. */
  lemma {:induction false} HolderAdded(s: Node, signature: TxId -> Signature, step: Step)
    requires OneHolder(s, signature) && Enabled(s, step)
    requires NewHolder(s, signature, step).None? ||
      var tx := NewHolder(s, signature, step).value;
      forall u :: Holds(s, u) && u != tx ==> signature(u) != signature(tx)
    ensures OneHolder(Next(s, signature, step), signature)
  {
    var t := Next(s, signature, step);
    forall u | Holds(t, u) ensures Holds(s, u) || NewHolder(s, signature, step) == Some(u) {
      HoldersAreOld(s, signature, step, u);
    }
  }

  // ----- Runs under the two conditions -----

  /**
   A first check starts only while no save for its signature is in flight (checking and saving in one step is
   the special case where none ever is), and a retry runs only if the check that queued it had the publication.
   */
  ghost predicate Guarded(s: Node, signature: TxId -> Signature, step: Step)
    requires Enabled(s, step)
  {
    match step
    case FirstCheck(tx, _) => forall save :: save in s.saves ==> signature(save.tx) != signature(tx)
    case RetryCheck(i, _) => s.retries[i].known
    case _ => true
  }

  ghost predicate Reaches(s: Node, signature: TxId -> Signature, steps: seq<Step>, t: Node, guarded: bool)
    decreases |steps|
  {
    if steps == [] then s == t
    else
      && Enabled(s, steps[0])
      && (guarded ==> Guarded(s, signature, steps[0]))
      && Reaches(Next(s, signature, steps[0]), signature, steps[1..], t, guarded)
  }

  lemma {:induction false} GuardedStepKeeps(s: Node, signature: TxId -> Signature, step: Step)
    requires Inv(s, signature) && Enabled(s, step) && Guarded(s, signature, step)
    ensures Inv(Next(s, signature, step), signature)
  {
    RecordedKept(s, signature, step);
    if NewHolder(s, signature, step).Some? {
      var tx := NewHolder(s, signature, step).value;
      if step.RetryCheck? {
        assert Holds(s, tx);
      }
    }
    HolderAdded(s, signature, step);
  }

  lemma {:induction false} GuardedRunsKeep(s: Node, signature: TxId -> Signature, steps: seq<Step>, t: Node)
    requires Inv(s, signature) && Reaches(s, signature, steps, t, true)
    ensures Inv(t, signature)
    decreases |steps|
  {
    if steps != [] {
      GuardedStepKeeps(s, signature, steps[0]);
      GuardedRunsKeep(Next(s, signature, steps[0]), signature, steps[1..], t);
    }
  }

  ghost predicate OneSuccess(s: Node, signature: TxId -> Signature) {
    forall t, u :: t in s.cache && u in s.cache && s.cache[t].verdict.Ok? && s.cache[u].verdict.Ok? && t != u
      ==> signature(t) != signature(u)
  }

  /** Over every guarded run, two transactions with the same chain signature are never both successes. */
  lemma {:induction false} OneSuccessPerSignature(signature: TxId -> Signature, steps: seq<Step>, t: Node)
    requires Reaches(INITIAL, signature, steps, t, true)
    ensures OneSuccess(t, signature) && OneHolder(t, signature)
  {
    GuardedRunsKeep(INITIAL, signature, steps, t);
  }

  /** In every run whatsoever, a verdict cached with its publication has its signature on record. */
  lemma {:induction false} SignaturesAreRecorded(s: Node, signature: TxId -> Signature, steps: seq<Step>, t: Node)
    requires Recorded(s, signature) && Reaches(s, signature, steps, t, false)
    ensures Recorded(t, signature)
    decreases |steps|
  {
    if steps != [] {
      RecordedKept(s, signature, steps[0]);
      SignaturesAreRecorded(Next(s, signature, steps[0]), signature, steps[1..], t);
    }
  }

  // ----- Every check that comes to a verdict uses its signature up -----

  /** What a first check saves and queues, by what the node knows of the transaction and of its signature. */
  lemma {:induction false} FirstCheckSaves(s: Node, signature: TxId -> Signature, tx: TxId, verdict: Verdict)
    ensures var t := Next(s, signature, FirstCheck(tx, verdict));
      && (tx !in s.cache && signature(tx) !in s.signatures ==>
            t == s.(saves := s.saves + [Save(tx, TxResult(verdict, true), false)],
                    retries := s.retries + if FailsTemporarily(verdict) then [Retry(tx, true)] else []))
      && (tx !in s.cache && signature(tx) in s.signatures ==>
            t == s.(saves := s.saves + [Save(tx, TxResult(Err(ChainSignatureAlreadyUsed), true), false)]))
      && (tx in s.cache ==>
            t == s.(saves := s.saves + [Save(tx, s.cache[tx], false)],
                    retries := s.retries + if FailsTemporarily(s.cache[tx].verdict)
                                           then [Retry(tx, s.cache[tx].publication)] else []))
  {
    hide ShouldRetry, Temporary, Queued, FailsTemporarily;
    QueuedIff(tx, FirstResult(s, signature, tx, verdict));
    RefusalIsFinal();
  }

  predicate FailsTemporarily(verdict: Verdict) {
    verdict.Err? && Temporary(verdict.error)
  }

  lemma {:induction false} QueuedIff(tx: TxId, result: TxResult)
    ensures Queued(tx, result) == if FailsTemporarily(result.verdict) then [Retry(tx, result.publication)] else []
  {
    if result.verdict.Err? {
      RetriedErrors(result.verdict.error);
    }
  }

  lemma RefusalIsFinal()
    ensures !FailsTemporarily(Err(ChainSignatureAlreadyUsed))
  {
  }

  /** A retry saves what it concludes and is gone, whatever the node knows; a check that throws saves no publication. */
  lemma {:induction false} OtherChecksSave(s: Node, signature: TxId -> Signature, tx: TxId, i: nat, verdict: Verdict)
    requires i < |s.retries|
    ensures var waiting := s.retries[..i] + s.retries[i + 1..];
      && Next(s, signature, RetryCheck(i, verdict)) ==
           s.(saves := s.saves + [Save(s.retries[i].tx, TxResult(verdict, true), false)], retries := waiting)
      && Next(s, signature, RetryThrows(i)) ==
           s.(saves := s.saves + [Save(s.retries[i].tx, TxResult(Err(Unknown), false), false)], retries := waiting)
    ensures Next(s, signature, FirstThrows(tx)) ==
      s.(saves := s.saves + [Save(tx, TxResult(Err(Unknown), false), false)], retries := s.retries + [Retry(tx, false)])
  {
  }

  /** The writes of a save: the signature goes on record before the verdict, and only with a publication. */
  lemma {:induction false} SaveIsWritten(s: Node, signature: TxId -> Signature, i: nat)
    requires i < |s.saves|
    ensures var save, once := s.saves[i], Next(s, signature, Write(i));
      var done := s.(cache := s.cache[save.tx := save.result], saves := s.saves[..i] + s.saves[i + 1..]);
      if save.signed || !save.result.publication then once == done
      else
        && once.cache == s.cache && |once.saves| == |s.saves|
        && once.signatures == s.signatures + {signature(save.tx)}
        && Next(once, signature, Write(i)) == done.(signatures := once.signatures)
  {
  }

  /** The first write after a check that came to a verdict, success or failure, records the signature. */
  lemma {:induction false} CheckRecordsSignature(s: Node, signature: TxId -> Signature, step: Step, x: Signature)
    requires Enabled(s, step) && Concludes(s, signature, step, x)
    ensures var t := Next(s, signature, step);
      && |t.saves| == |s.saves| + 1
      && Next(t, signature, Write(|s.saves|)).signatures == s.signatures + {x}
  {
    var t := Next(s, signature, step);
    if step.FirstCheck? {
      FirstCheckSaves(s, signature, step.tx, step.verdict);
    }
  }

  /** A first check of a new transaction, or a retry, that comes to a verdict on a publication with this signature. */
  ghost predicate Concludes(s: Node, signature: TxId -> Signature, step: Step, x: Signature)
    requires Enabled(s, step)
  {
    match step
    case FirstCheck(tx, _) => tx !in s.cache && signature(tx) == x
    case RetryCheck(i, _) => signature(s.retries[i].tx) == x
    case _ => false
  }

  ghost predicate SomeConcludes(s: Node, signature: TxId -> Signature, steps: seq<Step>, x: Signature)
    decreases |steps|
  {
    && steps != [] && Enabled(s, steps[0])
    && (Concludes(s, signature, steps[0], x)
        || SomeConcludes(Next(s, signature, steps[0]), signature, steps[1..], x))
  }

  /** On record, or about to be: a save with a publication is in flight. */
  ghost predicate Used(s: Node, signature: TxId -> Signature, x: Signature) {
    x in s.signatures || exists tx :: signature(tx) == x && Saving(s, tx)
  }

  lemma {:induction false} StepUses(s: Node, signature: TxId -> Signature, step: Step, x: Signature)
    requires Recorded(s, signature) && Enabled(s, step)
    ensures Used(Next(s, signature, step), signature, x) <==> Used(s, signature, x) || Concludes(s, signature, step, x)
  {
    var t := Next(s, signature, step);
    if Used(s, signature, x) && x !in s.signatures {
      var tx :| signature(tx) == x && Saving(s, tx);
      SavingKept(s, signature, step, tx);
    }
    if Concludes(s, signature, step, x) {
      ConcludingSaves(s, signature, step, x);
    }
    if tx :| signature(tx) == x && Saving(t, tx) {
      NewSaveConcludes(s, signature, step, tx);
    }
  }

  lemma {:induction false} ConcludingSaves(s: Node, signature: TxId -> Signature, step: Step, x: Signature)
    requires Enabled(s, step) && Concludes(s, signature, step, x)
    ensures Used(Next(s, signature, step), signature, x)
  {
    var t := Next(s, signature, step);
    if step.FirstCheck? {
      FirstCheckSaves(s, signature, step.tx, step.verdict);
    }
    var save := t.saves[|s.saves|];
    assert save in t.saves;
    assert Saving(t, save.tx);
  }

  lemma {:induction false} NewSaveConcludes(s: Node, signature: TxId -> Signature, step: Step, tx: TxId)
    requires Recorded(s, signature) && Enabled(s, step) && Saving(Next(s, signature, step), tx)
    ensures Used(s, signature, signature(tx)) || Concludes(s, signature, step, signature(tx))
  {
    var t := Next(s, signature, step);
    var save :| save in t.saves && save.tx == tx && save.result.publication;
    if save in s.saves {
      assert Saving(s, tx);
    } else if step.Write? {
      assert s.saves[step.i] in s.saves;
      assert Saving(s, tx);
    }
  }

  /** In every run, a signature is used exactly if it was before, or a check came to a verdict on it. */
  lemma {:induction false} SignatureIsUsedIff(s: Node, signature: TxId -> Signature, steps: seq<Step>, t: Node,
                                              x: Signature)
    requires Recorded(s, signature) && Reaches(s, signature, steps, t, false)
    ensures Used(t, signature, x) <==> Used(s, signature, x) || SomeConcludes(s, signature, steps, x)
    decreases |steps|
  {
    hide Used, Concludes, Recorded;
    if steps != [] {
      var next := Next(s, signature, steps[0]);
      StepUses(s, signature, steps[0], x);
      RecordedKept(s, signature, steps[0]);
      SignatureIsUsedIff(next, signature, steps[1..], t, x);
    }
  }

  lemma {:induction false} SignaturesStay(s: Node, signature: TxId -> Signature, steps: seq<Step>, t: Node)
    requires Reaches(s, signature, steps, t, false)
    ensures s.signatures <= t.signatures
    decreases |steps|
  {
    if steps != [] {
      SignaturesStay(Next(s, signature, steps[0]), signature, steps[1..], t);
    }
  }

  /**
   Once the saves of a run from a new node are through, a signature is on record exactly if some check came to a
   verdict on it: a failure uses a signature up like a success, and a check that throws does not. A first check
   of any transaction with such a signature that is not cached itself is refused, now and after any further steps.
   */
  lemma {:induction false} SignatureIsUsedUpIff(signature: TxId -> Signature, steps: seq<Step>, t: Node, x: Signature)
    requires Reaches(INITIAL, signature, steps, t, false) && t.saves == []
    ensures x in t.signatures <==> SomeConcludes(INITIAL, signature, steps, x)
  {
    hide Reaches, SomeConcludes;
    assert Recorded(INITIAL, signature);
    SignatureIsUsedIff(INITIAL, signature, steps, t, x);
  }

  lemma {:induction false} UsedSignatureIsRefused(s: Node, signature: TxId -> Signature, steps: seq<Step>, t: Node,
                                                  u: TxId, verdict: Verdict)
    requires Reaches(s, signature, steps, t, false) && signature(u) in s.signatures && u !in t.cache
    ensures Next(t, signature, FirstCheck(u, verdict)) ==
      t.(saves := t.saves + [Save(u, TxResult(Err(ChainSignatureAlreadyUsed), true), false)])
  {
    SignaturesStay(s, signature, steps, t);
    FirstCheckSaves(t, signature, u, verdict);
  }

  // ----- The exact condition -----

  /** The transaction a step turns into a candidate, if any. */
  function NewCandidate(s: Node, signature: TxId -> Signature, step: Step): Option<TxId>
    requires Enabled(s, step)
  {
    match step
    case FirstCheck(tx, verdict) =>
      var result := FirstResult(s, signature, tx, verdict);
      if result.verdict.Ok? || (WorthRetry(result.verdict) && result.publication) then Some(tx) else None
    case RetryCheck(i, verdict) => if verdict.Ok? then Some(s.retries[i].tx) else None
    case _ => None
  }

  lemma {:induction false} CandidatesAreOld(s: Node, signature: TxId -> Signature, step: Step, u: TxId)
    requires Enabled(s, step) && Candidate(Next(s, signature, step), u)
    ensures Candidate(s, u) || NewCandidate(s, signature, step) == Some(u)
  {
    match step
    case FirstCheck(tx, verdict) =>
    case FirstThrows(tx) =>
    case RetryCheck(i, verdict) => Removed(s.retries, i, Retry(u, true));
    case RetryThrows(i) => Removed(s.retries, i, Retry(u, true));
    case Write(i) =>
  }

  lemma {:induction false} NewCandidateIsOne(s: Node, signature: TxId -> Signature, step: Step)
    requires Enabled(s, step) && NewCandidate(s, signature, step).Some?
    ensures Candidate(Next(s, signature, step), NewCandidate(s, signature, step).value)
  {
    var t := Next(s, signature, step);
    assert t.saves[|s.saves|] in t.saves;
    if step.FirstCheck? {
      var queued := Queued(step.tx, FirstResult(s, signature, step.tx, step.verdict));
      assert forall r :: r in queued ==> r in t.retries;
    }
  }

  /** A first or repeated check takes no other candidate away. */
  lemma {:induction false} OthersStayCandidates(s: Node, signature: TxId -> Signature, step: Step, u: TxId)
    requires Enabled(s, step) && NewCandidate(s, signature, step).Some?
    requires Candidate(s, u) && u != NewCandidate(s, signature, step).value
    ensures Candidate(Next(s, signature, step), u)
  {
    var t := Next(s, signature, step);
    assert forall save :: save in s.saves ==> save in t.saves;
    if step.RetryCheck? {
      Removed(s.retries, step.i, Retry(u, true));
    }
  }

  /** Among candidates, the signature of one with neither a save nor a retry in flight is on record. */
  lemma {:induction false} UnrecordedRivals(s: Node, signature: TxId -> Signature, tx: TxId)
    requires Recorded(s, signature) && signature(tx) !in s.signatures
    ensures Rival(s, signature, tx) <==> RivalInFlight(s, signature, tx)
  {
    if Rival(s, signature, tx) {
      var u :| u != tx && signature(u) == signature(tx) && Candidate(s, u);
      assert !(u in s.cache && s.cache[u].verdict.Ok?);
      if !exists save :: save in s.saves && save.tx == u && save.result.verdict.Ok? {
        assert Retry(u, true) in s.retries;
      }
    }
    if save :| save in s.saves && save.tx != tx && signature(save.tx) == signature(tx) && save.result.verdict.Ok? {
      assert Candidate(s, save.tx);
    }
    if r :| r in s.retries && r.known && r.tx != tx && signature(r.tx) == signature(tx) {
      assert r == Retry(r.tx, true) && Candidate(s, r.tx);
    }
  }

  /** With one candidate per signature, a step gives some signature a second one exactly if it breaks. */
  lemma {:induction false} SecondCandidateIff(s: Node, signature: TxId -> Signature, step: Step)
    requires Recorded(s, signature) && OneCandidate(s, signature) && Enabled(s, step)
    ensures OneCandidate(Next(s, signature, step), signature) <==> !Breaks(s, signature, step)
  {
    var t, added := Next(s, signature, step), NewCandidate(s, signature, step);
    forall u | Candidate(t, u) ensures Candidate(s, u) || added == Some(u) {
      CandidatesAreOld(s, signature, step, u);
    }
    if added.Some? {
      var tx := added.value;
      NewCandidateIsOne(s, signature, step);
      forall u | Candidate(s, u) && u != tx ensures Candidate(t, u) {
        OthersStayCandidates(s, signature, step, u);
      }
      assert OneCandidate(t, signature) <==> !Rival(s, signature, tx);
      assert Candidate(s, tx) ==> !Rival(s, signature, tx);
      BreaksIff(s, signature, step);
    } else {
      BreaksNothing(s, signature, step);
    }
  }

  lemma {:induction false} BreaksIff(s: Node, signature: TxId -> Signature, step: Step)
    requires Recorded(s, signature) && Enabled(s, step) && NewCandidate(s, signature, step).Some?
    requires Candidate(s, NewCandidate(s, signature, step).value) ==>
      !Rival(s, signature, NewCandidate(s, signature, step).value)
    ensures Breaks(s, signature, step) <==> Rival(s, signature, NewCandidate(s, signature, step).value)
  {
    hide Recorded, Rival, RivalInFlight;
    if step.FirstCheck? && step.tx !in s.cache && signature(step.tx) !in s.signatures {
      UnrecordedRivals(s, signature, step.tx);
    }
  }

  lemma {:induction false} BreaksNothing(s: Node, signature: TxId -> Signature, step: Step)
    requires Enabled(s, step) && NewCandidate(s, signature, step).None?
    ensures !Breaks(s, signature, step)
  {
    hide Rival, RivalInFlight;
  }

  /** Puts a step in front of a run. */
  lemma {:induction false} Before(s: Node, signature: TxId -> Signature, step: Step, rest: seq<Step>, t: Node)
    returns (steps: seq<Step>)
    requires Enabled(s, step) && Reaches(Next(s, signature, step), signature, rest, t, false)
    ensures steps == [step] + rest && Reaches(s, signature, steps, t, false)
  {
    steps := [step] + rest;
    assert steps[1..] == rest;
  }

  /** Steps that only finish what has begun: writes of saves in flight, and retries whose check had the publication. */
  ghost predicate Finishing(s: Node, signature: TxId -> Signature, steps: seq<Step>, t: Node)
    decreases |steps|
  {
    if steps == [] then s == t
    else
      && Enabled(s, steps[0])
      && (steps[0].Write? || (steps[0].RetryCheck? && s.retries[steps[0].i].known))
      && Finishing(Next(s, signature, steps[0]), signature, steps[1..], t)
  }

  lemma {:induction false} Prepend(s: Node, signature: TxId -> Signature, step: Step, rest: seq<Step>, t: Node)
    returns (steps: seq<Step>)
    requires Enabled(s, step) && (step.Write? || (step.RetryCheck? && s.retries[step.i].known))
    requires Finishing(Next(s, signature, step), signature, rest, t)
    ensures steps == [step] + rest && Finishing(s, signature, steps, t)
  {
    steps := [step] + rest;
    assert steps[1..] == rest;
  }

  lemma {:induction false} FinishingAppends(s: Node, signature: TxId -> Signature, a: seq<Step>, m: Node, b: seq<Step>,
                                            t: Node)
    requires Finishing(s, signature, a, m) && Finishing(m, signature, b, t)
    ensures Finishing(s, signature, a + b, t)
    decreases |a|
  {
    if a == [] {
      assert a + b == b;
    } else {
      assert (a + b)[1..] == a[1..] + b;
      FinishingAppends(Next(s, signature, a[0]), signature, a[1..], m, b, t);
    }
  }

  ghost predicate CachedSuccess(s: Node, tx: TxId) {
    tx in s.cache && s.cache[tx].verdict.Ok?
  }

  /** A success in flight can be written, while every other candidate stays one. */
  lemma {:induction false} WriteOut(s: Node, signature: TxId -> Signature, tx: TxId, i: nat, u: TxId)
    returns (steps: seq<Step>, t: Node)
    requires i < |s.saves| && s.saves[i].tx == tx && s.saves[i].result.verdict.Ok? && u != tx
    ensures Finishing(s, signature, steps, t) && CachedSuccess(t, tx)
    ensures Candidate(s, u) ==> Candidate(t, u)
    ensures CachedSuccess(s, u) ==> CachedSuccess(t, u)
  {
    var m := s;
    steps := [];
    if s.saves[i].result.publication && !s.saves[i].signed {
      m := Next(s, signature, Write(i));
      steps := [Write(i)];
      WriteKeepsCandidate(s, signature, i, u);
    }
    t := Next(m, signature, Write(i));
    WriteKeepsCandidate(m, signature, i, u);
    var last := Prepend(m, signature, Write(i), [], t);
    if steps != [] {
      last := Prepend(s, signature, Write(i), last, t);
    }
    steps := last;
  }

  lemma {:induction false} WriteKeepsCandidate(s: Node, signature: TxId -> Signature, i: nat, u: TxId)
    requires i < |s.saves| && s.saves[i].tx != u
    ensures var t := Next(s, signature, Write(i));
      (Candidate(s, u) ==> Candidate(t, u)) && (CachedSuccess(s, u) ==> CachedSuccess(t, u))
  {
    var t := Next(s, signature, Write(i));
    if save :| save in s.saves && save.tx == u && save.result.verdict.Ok? {
      Removed(s.saves, i, save);
      var j :| 0 <= j < |s.saves| && s.saves[j] == save;
      assert |t.saves| == |s.saves| ==> t.saves[j] == save;
    }
  }

  /** Each candidate can become a cached success, while another one stays what it is. */
  lemma {:induction false} Finish(s: Node, signature: TxId -> Signature, tx: TxId, u: TxId)
    returns (steps: seq<Step>, t: Node)
    requires Candidate(s, tx) && u != tx
    ensures Finishing(s, signature, steps, t) && CachedSuccess(t, tx)
    ensures Candidate(s, u) ==> Candidate(t, u)
    ensures CachedSuccess(s, u) ==> CachedSuccess(t, u)
  {
    if CachedSuccess(s, tx) {
      steps, t := [], s;
    } else if save :| save in s.saves && save.tx == tx && save.result.verdict.Ok? {
      var i :| 0 <= i < |s.saves| && s.saves[i] == save;
      steps, t := WriteOut(s, signature, tx, i, u);
    } else {
      var i :| 0 <= i < |s.retries| && s.retries[i] == Retry(tx, true);
      var m := Next(s, signature, RetryCheck(i, Ok(())));
      RetryKeepsCandidate(s, signature, i, u);
      assert m.saves[|s.saves|] == Save(tx, TxResult(Ok(()), true), false);
      steps, t := WriteOut(m, signature, tx, |s.saves|, u);
      steps := Prepend(s, signature, RetryCheck(i, Ok(())), steps, t);
    }
  }

  lemma {:induction false} RetryKeepsCandidate(s: Node, signature: TxId -> Signature, i: nat, u: TxId)
    requires i < |s.retries| && s.retries[i].tx != u
    ensures var t := Next(s, signature, RetryCheck(i, Ok(())));
      (Candidate(s, u) ==> Candidate(t, u)) && (CachedSuccess(s, u) ==> CachedSuccess(t, u))
  {
    var t := Next(s, signature, RetryCheck(i, Ok(())));
    Removed(s.retries, i, Retry(u, true));
    assert forall save :: save in s.saves ==> save in t.saves;
  }

  /** Finishing what has begun can end in two successes with one signature. */
  ghost predicate Doomed(s: Node, signature: TxId -> Signature) {
    exists steps, t :: Finishing(s, signature, steps, t) && !OneSuccess(t, signature)
  }

  lemma {:induction false} FinishingKeepsOne(s: Node, signature: TxId -> Signature, steps: seq<Step>, t: Node)
    requires OneCandidate(s, signature) && Finishing(s, signature, steps, t)
    ensures OneCandidate(t, signature)
    decreases |steps|
  {
    if steps != [] {
      var next := Next(s, signature, steps[0]);
      forall u | Candidate(next, u) ensures Candidate(s, u) {
        CandidatesAreOld(s, signature, steps[0], u);
      }
      FinishingKeepsOne(next, signature, steps[1..], t);
    }
  }

  /** In every state whatsoever: two candidates with one signature are exactly what can end as two successes. */
  lemma {:induction false} DoomedIff(s: Node, signature: TxId -> Signature)
    ensures Doomed(s, signature) <==> !OneCandidate(s, signature)
  {
    if !OneCandidate(s, signature) {
      var a, b :| Candidate(s, a) && Candidate(s, b) && a != b && signature(a) == signature(b);
      var first, m := Finish(s, signature, a, b);
      var second, t := Finish(m, signature, b, a);
      FinishingAppends(s, signature, first, m, second, t);
      assert !OneSuccess(t, signature);
    }
    if OneCandidate(s, signature) {
      forall steps, t | Finishing(s, signature, steps, t) ensures OneSuccess(t, signature) {
        FinishingKeepsOne(s, signature, steps, t);
      }
    }
  }

  /**
   From a state that cannot end in two successes by finishing what has begun, a step leads to one that can
   exactly if it breaks. `Breaks` looks at the state before the step only.
   */
  lemma {:induction false} StepDoomsIff(s: Node, signature: TxId -> Signature, step: Step)
    requires Recorded(s, signature) && !Doomed(s, signature) && Enabled(s, step)
    ensures Doomed(Next(s, signature, step), signature) <==> Breaks(s, signature, step)
  {
    hide Doomed, OneCandidate, Recorded;
    DoomedIff(s, signature);
    DoomedIff(Next(s, signature, step), signature);
    SecondCandidateIff(s, signature, step);
  }

  /** A run no step of which breaks. */
  ghost predicate Unbroken(s: Node, signature: TxId -> Signature, steps: seq<Step>, t: Node)
    decreases |steps|
  {
    if steps == [] then s == t
    else
      && Enabled(s, steps[0]) && !Breaks(s, signature, steps[0])
      && Unbroken(Next(s, signature, steps[0]), signature, steps[1..], t)
  }

  /** Over every unbroken run no two transactions with one signature are both successes, now or after finishing. */
  lemma {:induction false} UnbrokenRunsAreSafe(s: Node, signature: TxId -> Signature, steps: seq<Step>, t: Node)
    requires Recorded(s, signature) && !Doomed(s, signature) && Unbroken(s, signature, steps, t)
    ensures !Doomed(t, signature) && OneSuccess(t, signature)
    decreases |steps|
  {
    if steps == [] {
      assert Finishing(s, signature, [], s);
    } else {
      hide Doomed, OneSuccess, Recorded, Breaks;
      RecordedKept(s, signature, steps[0]);
      StepDoomsIff(s, signature, steps[0]);
      UnbrokenRunsAreSafe(Next(s, signature, steps[0]), signature, steps[1..], t);
    }
  }

  /** The empty node is recorded and not doomed. */
  lemma {:induction false} InitialIsSafe(signature: TxId -> Signature)
    ensures Recorded(INITIAL, signature) && !Doomed(INITIAL, signature)
  {
    DoomedIff(INITIAL, signature);
  }

  /** In particular, over every unbroken run of a new node. */
  lemma {:induction false} UnbrokenFromStart(signature: TxId -> Signature, steps: seq<Step>, t: Node)
    requires Unbroken(INITIAL, signature, steps, t)
    ensures !Doomed(t, signature) && OneSuccess(t, signature)
  {
    InitialIsSafe(signature);
    UnbrokenRunsAreSafe(INITIAL, signature, steps, t);
  }

  /** The four writes that finish the saves of two successes. */
  lemma {:induction false} FinishTwo(s: Node, a: TxId, b: TxId, signature: TxId -> Signature)
    returns (steps: seq<Step>, t: Node)
    requires a != b && s.saves == [Save(a, TxResult(Ok(()), true), false), Save(b, TxResult(Ok(()), true), false)]
    ensures Reaches(s, signature, steps, t, false)
    ensures a in t.cache && b in t.cache && t.cache[a].verdict.Ok? && t.cache[b].verdict.Ok?
  {
    var s1 := Next(s, signature, Write(0));
    var s2 := Next(s1, signature, Write(0));
    assert s2.saves == [s.saves[1]];
    var s3 := Next(s2, signature, Write(0));
    t := Next(s3, signature, Write(0));
    steps := Before(s3, signature, Write(0), [], t);
    steps := Before(s2, signature, Write(0), steps, t);
    steps := Before(s1, signature, Write(0), steps, t);
    steps := Before(s, signature, Write(0), steps, t);
  }

  /** Two first checks before the first save is written: both are cached as successes. */
  lemma {:induction false} OverlappingChecksBreakIt(a: TxId, b: TxId, signature: TxId -> Signature)
    returns (steps: seq<Step>, t: Node)
    requires a != b && signature(a) == signature(b)
    ensures Reaches(INITIAL, signature, steps, t, false) && !OneSuccess(t, signature)
  {
    var s1 := Next(INITIAL, signature, FirstCheck(a, Ok(())));
    var s2 := Next(s1, signature, FirstCheck(b, Ok(())));
    steps, t := FinishTwo(s2, a, b, signature);
    steps := Before(s1, signature, FirstCheck(b, Ok(())), steps, t);
    steps := Before(INITIAL, signature, FirstCheck(a, Ok(())), steps, t);
  }

  /** A first check that throws is retried although its signature was never recorded, and another one was. */
  lemma {:induction false} BlindRetryBreaksIt(a: TxId, b: TxId, signature: TxId -> Signature)
    returns (steps: seq<Step>, t: Node)
    requires a != b && signature(a) == signature(b)
    ensures Reaches(INITIAL, signature, steps, t, false) && !OneSuccess(t, signature)
  {
    var s1 := Next(INITIAL, signature, FirstThrows(a));
    var s2 := Next(s1, signature, Write(0));
    var s3 := Next(s2, signature, FirstCheck(b, Ok(())));
    var s4 := Next(s3, signature, RetryCheck(0, Ok(())));
    steps, t := FinishTwo(s4, b, a, signature);
    steps := Before(s3, signature, RetryCheck(0, Ok(())), steps, t);
    steps := Before(s2, signature, FirstCheck(b, Ok(())), steps, t);
    steps := Before(s1, signature, Write(0), steps, t);
    steps := Before(INITIAL, signature, FirstThrows(a), steps, t);
  }
}
