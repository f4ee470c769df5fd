/** Outcome of a service call: either a value or the message of the exception
    the service throws. Each service call of the form store is a pure function
    returning one of these. */
module Results {

  datatype Option<+T> = None | Some(value: T)

  /** `Err` carries the exception message verbatim, since callers (the HTTP
      controllers) switch on the exact text. */
  datatype Result<+T> = Ok(value: T) | Err(error: string) {

    predicate IsFailure() {
      Err?
    }

    function PropagateFailure<U>(): Result<U>
      requires Err?
    {
      Err(error)
    }

    function Extract(): T
      requires Ok?
    {
      value
    }
  }

  /** Fails with `error` unless `condition` holds; used with `:-`. */
  datatype Check = Pass | Fail(error: string) {

    predicate IsFailure() {
      Fail?
    }

    function PropagateFailure<U>(): Result<U>
      requires Fail?
    {
      Err(error)
    }
  }

  function Require(condition: bool, error: string): (c: Check)
    ensures c.Pass? <==> condition
    ensures c.Fail? ==> c.error == error
  {
    if condition then Pass else Fail(error)
  }
}
