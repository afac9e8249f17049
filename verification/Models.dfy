/** The error codes of the Node verifier and which of them are retried. */
module Models {

  datatype ValidatorError =
    | NoSignatureSubmitter | InvalidSignatureSubmitter
    | TimestampProofInvalidSignature | TimestampProofInvalidType | TimestampProofInvalidDaId
    | TimestampProofNotSubmitter
    | CanNotConnectToBundlr | InvalidTxId | InvalidFormattedTypedData
    | BlockCantBeReadFromNode | DataCantBeReadFromNode
    | SimulationNodeCouldNotRun | SimulationFailed
    | EventMismatch | InvalidEventTimestamp | InvalidTypedDataDeadlineTimestamp
    | GeneratedPublicationIdMismatch | InvalidPointerSetNotNeeded | PointerFailedVerification
    | NotClosestBlock | PublicationNoPointer | PublicationNoneDa
    | PublicationNonceInvalid | PublicationSignerNotAllowed
    | ChainSignatureAlreadyUsed | PotentialReorg | PublicationNotRecognized | Unknown

  predicate ShouldRetry(error: ValidatorError) {
    error in {Unknown, CanNotConnectToBundlr, BlockCantBeReadFromNode, DataCantBeReadFromNode,
              SimulationNodeCouldNotRun}
  }

  /** A failure to read something, or a check that threw: the error may be gone at the next attempt. */
  predicate Temporary(error: ValidatorError) {
    || error.Unknown?
    || error.CanNotConnectToBundlr?
    || error.BlockCantBeReadFromNode? || error.DataCantBeReadFromNode?
    || error.SimulationNodeCouldNotRun?
  }

  /** Exactly the five temporary errors are retried. */
  lemma RetriedErrors(error: ValidatorError)
    ensures ShouldRetry(error) <==> Temporary(error)
  {
  }
}
