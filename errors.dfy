/** Status codes (MsvErrorCode) and the failure test that MSV_FAILED applies to them. */
module ErrorCodes {

  /** The status codes the modelled code names, plus room for codes that only
      the collaborators outside this model produce. */
  datatype ErrorCode =
    | Success
    | AlreadyInitializedInfo
    | NotInitializedInfo
    | AlreadyRunningInfo
    | NotRunningInfo
    | AllocationError
    | InvalidDataError
    | NotInitializedError
    | StillRunningError
    | AlreadyExistsError
    | NotFoundError
    | DoesNotExistError
    | OtherInfo(info: nat)
    | OtherError(error: nat)

  /** Info-level codes: a benign no-op rather than an error. */
  predicate IsInfo(c: ErrorCode) {
    c.AlreadyInitializedInfo? || c.NotInitializedInfo? || c.AlreadyRunningInfo?
    || c.NotRunningInfo? || c.OtherInfo?
  }

  /** MSV_FAILED is defined outside the modelled files. What is known of it: success
      never fails and every error code fails. Whether info codes fail is left open,
      as a parameter every model of the source carries; one flag decides it for every
      info code alike. */
  datatype FailureTest = FailureTest(infoFails: bool)

  predicate IsFailed(t: FailureTest, c: ErrorCode) {
    if c.Success? then false else if IsInfo(c) then t.infoFails else true
  }
}
