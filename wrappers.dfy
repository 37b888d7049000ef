/** Java's null, exceptions and the "null or empty array" test, as values. */
module Wrappers {

  /** A reference that may be null. */
  datatype Option<+T> = None | Some(value: T) {
    function GetOr(default: T): T {
      match this
      case Some(v) => v
      case None => default
    }
  }

  /** The exceptions the modelled code can raise. */
  datatype Fault = NullPointer | IllegalArgument(message: string)

  /** A value, or the exception raised while computing it. */
  datatype Result<+T> = Ok(value: T) | Fail(fault: Fault) {
    predicate IsFailure() {
      Fail?
    }

    function PropagateFailure<U>(): Result<U>
      requires Fail?
    {
      Fail(fault)
    }

    function Extract(): T
      requires Ok?
    {
      value
    }
  }

  /** The exception a computation raised, if any. */
  function Thrown<T>(r: Result<T>): Option<Fault> {
    match r
    case Ok(_) => None
    case Fail(f) => Some(f)
  }

  /** `isEmpty(a) ? new T[0] : a`: a null array reads as an empty one. */
  function OrEmpty<T>(a: Option<seq<T>>): (s: seq<T>)
    ensures a.None? ==> s == []
    ensures a.Some? ==> s == a.value
  {
    match a
    case None => []
    case Some(elements) => elements
  }

  /** Concatenation regrouped, for chained appends. */
  lemma AppendAssoc<T>(a: seq<T>, b: seq<T>, c: seq<T>)
    ensures a + b + c == a + (b + c)
  {
  }

  /** What is appended to leaves the original in front. */
  lemma AppendPrefix<T>(a: seq<T>, b: seq<T>)
    ensures a <= a + b
  {
    assert (a + b)[..|a|] == a;
  }
}
