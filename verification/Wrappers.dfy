/** Failure-compatible results shared by the other modules. */
module Wrappers {

  datatype Option<+T> = None | Some(value: T)

  /** The result of code that dereferences pointers: `Fault` stands for following a pointer to a
      freed record, freeing a record twice, or indexing past the end of a context array. */
  datatype Outcome<+T> = Ok(value: T) | Fault {

    predicate IsFailure() {
      Fault?
    }

    function PropagateFailure<U>(): Outcome<U>
      requires Fault?
    {
      Fault
    }

    function Extract(): T
      requires Ok?
    {
      value
    }
  }
}
