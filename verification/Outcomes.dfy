/** Results of operations that can fail, and the failures the migration tells apart. */
module Outcomes {

  datatype Option<+T> = None | Some(value: T)

  /** Only the error kinds the source matches on are kept apart; every other error is `Other`. */
  datatype Fault = NotFound | AlreadyExists | Other

  datatype Result<+T> = Ok(value: T) | Err(fault: Fault) {
    predicate IsFailure() {
      Err?
    }

    function PropagateFailure<U>(): Result<U>
      requires Err?
    {
      Err(fault)
    }

    function Extract(): T
      requires Ok?
    {
      value
    }
  }
}
