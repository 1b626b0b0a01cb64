/** The optional value used throughout for the source's std::optional, and
    the ways a call into the outside world can end. */
module Wrappers {
  datatype Option<+T> = None | Some(value: T)

  /** Definitions that are unfolded only where a proof says so.  A folded
      definition speaks about every value that `Unfold` equates with its
      subject, and a proof unfolds it by asserting `Unfold` of the subject. */
  datatype Folded = Soundness | Storage | Awareness | Knowledge | Agreement | Attestation

  predicate Unfold<T(==)>(definition: Folded, value: T, subject: T) {
    value == subject
  }

  /** Why a call threw. */
  datatype Fault =
    | MissingDeclaration
    | StoreConflict
    | StepRefused
    | HistoryRefused
    | PlanRefused
    | NotResumable
    | ViewRefused
    | BackendFault
    | PhaseRefused
    | ReceiptRefused
    | EvidenceRefused

  /** A call returns a value, ends with the process dying inside it, or
      throws. */
  datatype Flow<+T> = Live(value: T) | Crashed | Thrown(fault: Fault) {
    predicate IsFailure() {
      !Live?
    }

    function PropagateFailure<U>(): Flow<U>
      requires IsFailure()
    {
      if Crashed? then Crashed else Thrown(fault)
    }

    function Extract(): T
      requires Live?
    {
      value
    }
  }
}
