/** The failure kinds the cargo model can report, and the small wrappers that
    carry them. Each exception the C# program throws becomes one Error. */
module Outcomes {

  /** Overflow: OverflowException from a container's hard cap.
      CapacityExceeded, WeightExceeded: the two InvalidOperationExceptions a
      ship raises when loading (same exception type, different message).
      NotFound: ArgumentException from a replacement whose serial is absent.
      UnknownProduct: ArgumentException from a refrigerated container whose
      product is not in the temperature table. */
  datatype Error = Overflow | CapacityExceeded | WeightExceeded | NotFound | UnknownProduct

  /** The result of an operation that returns nothing when it succeeds. */
  datatype Outcome = Pass | Fail(error: Error)

  /** The result of an operation that yields a value when it succeeds. */
  datatype Result<+T> = Ok(value: T) | Err(error: Error)

  datatype Option<+T> = None | Some(value: T)
}
