/** Shared result types and the errors the orchestration core can raise. */
module Common {

  datatype Option<+T> = None | Some(value: T)

  datatype Result<+T, +E> = Ok(value: T) | Err(error: E)

  /** The exceptions that reach the orchestrator.  `UnknownModel` is the
      `KeyError` of the model-registry lookup; `MeterNotFound` is the failed
      attribute access on a metric logger whose `acc1` meter was never
      created (no batch was evaluated); `ZeroDivision` is a global average
      taken over a total sample count of zero. */
  datatype Error = UnknownModel(name: string) | MeterNotFound | ZeroDivision
  {
    /** True for the errors raised inside `evaluate`. */
    predicate IsEvalError() { !UnknownModel? }
  }
}
