/**
 * Outcomes of the campaign budget computations. The source signals failure with
 * exceptions; here each failure is a value.
 */
module Outcomes {

  /** Which check of the Campaign constructor rejected its inputs (each is an ArgumentException). */
  datatype InputError =
    | BadBudgets            // budget array null, empty, or holding a negative budget
    | AgencyFeeOutOfRange   // agency fee percentage outside [0, 1]
    | ToolFeeOutOfRange     // third-party tool fee percentage outside [0, 1]
    | NegativeFixedCost     // fixed agency costs below zero

  datatype Error =
    | InvalidInput(reason: InputError)   // ArgumentException
    | NonConvergence                     // the goal seek ran out of iterations

  datatype Option<+T> = None | Some(value: T)

  datatype Result<+T> = Ok(value: T) | Err(error: Error)
}
