/** Failure-compatible wrappers used by the rule engine: Python's `None` as
    `Option`, and the exceptions a rule can raise as `Outcome`. */
module Outcomes {

  /** A value that may be missing: a dictionary key that is absent, or a
      Python `None`. */
  datatype Option<+T> = None | Some(value: T) {
    predicate IsFailure() { None? }

    function PropagateFailure<U>(): Option<U>
      requires None?
    {
      None
    }

    function Extract(): T
      requires Some?
    {
      value
    }
  }

  /** The exceptions the rules raise when the document has an unexpected
      shape; none of them is caught anywhere in the program. */
  datatype Fault =
    | NoneNotIterable        // TypeError: iterating over a missing list
    | MissingKey(key: string) // KeyError on a dictionary lookup
    | NoneInDivision         // TypeError: `None` as an operand of `/`
    | DivisionByZero         // ZeroDivisionError

  /** Either the value a rule returns, or the exception it raises. */
  datatype Outcome<+T> = Ok(value: T) | Raised(fault: Fault) {
    predicate IsFailure() { Raised? }

    function PropagateFailure<U>(): Outcome<U>
      requires Raised?
    {
      Raised(fault)
    }

    function Extract(): T
      requires Ok?
    {
      value
    }
  }

  /** Python's `xs[i]` guarded by a bounds check. */
  function At<T>(xs: seq<T>, i: int): Option<T>
  {
    if 0 <= i < |xs| then Some(xs[i]) else None
  }

  /** Python's `/` on numbers that may be `None`: `None` on either side
      raises a TypeError, a zero divisor a ZeroDivisionError. */
  function PyDivide(n: Option<real>, d: Option<real>): (r: Outcome<real>)
    ensures r.Ok? <==> n.Some? && d.Some? && d.value != 0.0
    ensures r.Ok? ==> r.value * d.value == n.value
    ensures r.Raised? ==>
              r.fault == if n.None? || d.None? then NoneInDivision else DivisionByZero
  {
    if n.None? || d.None? then Raised(NoneInDivision)
    else if d.value == 0.0 then Raised(DivisionByZero)
    else Ok(n.value / d.value)
  }
}
