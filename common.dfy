/** Types shared by every part of the st_graph model. */
module Common {

  /** The one kind of exception the library throws: std::logic_error with its message. */
  datatype Error = LogicError(message: string)

  /** A pointer that may be null. */
  datatype Option<+T> = None | Some(value: T)

  /** The outcome of an operation that either returns a value or throws a logic error. */
  datatype Result<+T> = Ok(value: T) | Err(error: Error) {
    predicate IsFailure() { Err? }

    function PropagateFailure<U>(): Result<U>
      requires Err?
    {
      Err(error)
    }

    function Extract(): T
      requires Ok?
    {
      value
    }
  }

  /** n zeros: the padding std::vector::resize(n, 0.) appends, and a freshly booked histogram's bins. */
  function Zeros(n: nat): (r: seq<real>)
    ensures |r| == n
    ensures forall i :: 0 <= i < n ==> r[i] == 0.0
  {
    seq(n, _ => 0.0)
  }

  /** The outcome of an operation that returns nothing or throws a logic error. */
  datatype Outcome = Pass | Fail(error: Error)

  /**
   * The address of a C++ object as the registries see it: frames and plots are
   * registered and unregistered by pointer, and only pointer equality matters.
   */
  datatype Handle = Handle(address: nat)
}
