/**
 The library's error vocabulary: the two-case `Result` enum used to hand results to
 completion handlers, the `POSIXError` value type that wraps an `errno` code, and the
 pattern match `POSIXError(EAGAIN) ~= error` that every pump uses to tell a transient
 would-block from a fatal failure.
 */
module Posix {

  newtype int32 = x: int | -0x8000_0000 <= x < 0x8000_0000

  /** Darwin's errno for "resource temporarily unavailable". */
  const EAGAIN: int32 := 35
  /** On Darwin EWOULDBLOCK is defined as EAGAIN. */
  const EWOULDBLOCK: int32 := EAGAIN

  datatype Option<T> = None | Some(value: T)

  /** What a `throws` function produced: a value, or the thrown payload. */
  datatype Outcome<R, E> = Returns(value: R) | Throws(thrown: E)

  /** Swift's `Result<R,E>` with its cases `.result(r)` and `.error(e)`. */
  datatype Result<R, E> = Result(r: R) | Error(e: E)
  {
    /** `unwrap()`: the value of `.result`, or a throw of the `.error` payload. */
    function Unwrap(): (o: Outcome<R, E>)
      ensures o.Returns? <==> this.Result?
      ensures o.Returns? ==> this == Result(o.value)
      ensures o.Throws? ==> this == Error(o.thrown)
    {
      match this
      case Result(v) => Returns(v)
      case Error(x) => Throws(x)
    }

    /** The `result` accessor: non-nil exactly for `.result`. */
    function AsResult(): (o: Option<R>)
      ensures o.Some? <==> this.Result?
      ensures o.Some? ==> this == Result(o.value)
    {
      match this
      case Result(v) => Some(v)
      case Error(_) => None
    }

    /** The `error` accessor: non-nil exactly for `.error`. */
    function AsError(): (o: Option<E>)
      ensures o.Some? <==> this.Error?
      ensures o.Some? ==> this == Error(o.value)
    {
      match this
      case Result(_) => None
      case Error(x) => Some(x)
    }
  }

  /** Exactly one of the two accessors is non-nil, and `unwrap` agrees with them. */
  lemma AccessorsExclusive<R, E>(x: Result<R, E>)
    ensures x.AsResult().Some? != x.AsError().Some?
    ensures x.Unwrap().Returns? ==> x.AsResult() == Some(x.Unwrap().value)
    ensures x.Unwrap().Throws? ==> x.AsError() == Some(x.Unwrap().thrown)
  {
  }

  datatype POSIXError = POSIXError(code: int32)

  /** A thrown Swift error: a `POSIXError`, or any other error (carrying its NSError code). */
  datatype Thrown = Posix(posix: POSIXError) | Other(code: int)

  /** `hashValue`: the hash of the code alone. */
  function HashValue(e: POSIXError): int
  {
    e.code as int
  }

  /** `==`: two errors are equal when their codes are. */
  function Equals(lhs: POSIXError, rhs: POSIXError): (r: bool)
    ensures r <==> lhs == rhs
    ensures r ==> HashValue(lhs) == HashValue(rhs)
  {
    lhs.code == rhs.code
  }

  /** `lhs ~= rhs`: `rhs` is a POSIXError and equals `lhs`; what a `catch POSIXError(c)` tests. */
  function Matches(lhs: POSIXError, rhs: Thrown): (r: bool)
    ensures r <==> rhs == Posix(lhs)
  {
    match rhs
    case Posix(p) => Equals(lhs, p)
    case Other(_) => false
  }

  /**
   The two `catch POSIXError(EAGAIN) {}` / `catch POSIXError(EWOULDBLOCK) {}` clauses the
   pumps use to absorb a would-block; anything else reaches the fatal `catch`.
   */
  predicate IsWouldBlock(e: Thrown)
  {
    Matches(POSIXError(EAGAIN), e) || Matches(POSIXError(EWOULDBLOCK), e)
  }

  lemma WouldBlockIsEagain(e: Thrown)
    ensures IsWouldBlock(e) <==> e == Posix(POSIXError(35))
  {
  }
}
