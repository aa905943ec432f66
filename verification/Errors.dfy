/** The error codes that the modelled operations can throw (errors.hpp). */
module Errors {
  datatype ErrorCode =
    | InvalidArgument | BoundsExceeded | UnknownEngine | UnknownIncarnation | UnknownProfile | UnknownAttempt
    | UnknownUse | NotFound | InvalidState | StaleGeneration | StaleEpoch | StaleAuthority | StaleIncarnation
    | IncompatibleProfile | PlanStale | AttemptCancelled | FencedWorker | RegistrationRejected
    | ActivationConflict | UseAfterDrain | DuplicateRelease | GenerationExhausted | PersistenceCorrupt
    | OutOfRange  // std::out_of_range from unordered_map::at
}
