/**
 * Failure values of the geometry engine.  Every exception the engine raises
 * becomes a `Failure` carrying one of these errors, so that callers see the
 * error path instead of a precondition.
 */
module Results {

  datatype Error =
    /** `get_mos_tech_constants` only knows channel length 18. */
    | UnsupportedChannelLength(lch: int)
    /** `get_mos_layers` does not recognise the threshold flavour. */
    | UnrecognizedThreshold(threshold: string)
    /** A guard ring narrower than the process minimum was requested. */
    | GuardRingTooSmall(nf: int, nfMin: int)
    /** A constant-table lookup used a key the table does not define. */
    | MissingKey(key: string)
    /** An attribute was read from a record that does not have it. */
    | MissingAttribute(record: string, attribute: string)
    /** An attribute was read from an absent (None) edge record. */
    | AbsentEdgeInfo
    /** An int was unpacked as a (start, stop) pair: Python raises a TypeError. */
    | CannotUnpackInt(value: int)

  datatype Result<+T> = Success(value: T) | Failure(error: Error) {

    predicate IsFailure() {
      Failure?
    }

    function PropagateFailure<U>(): Result<U>
      requires Failure?
    {
      Failure(error)
    }

    function Extract(): T
      requires Success?
    {
      value
    }
  }
}
