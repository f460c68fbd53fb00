/** Shared vocabulary of the model: optional values (SQL NULL and Python None), the
    error kinds the services raise, and the numeric conversions the source relies on. */
module Common {

  /** An optional value: SQL NULL or Python None is `None`. */
  datatype Option<+T> = None | Some(value: T)

  /** The HTTP errors the use cases raise (`HTTPException`) and the Python exceptions
      that escape them. */
  datatype Error =
    | BadRequest(detail: string)          // HTTPStatus.BAD_REQUEST
    | NotFound(detail: string)            // HTTPStatus.NOT_FOUND
    | InternalServerError(detail: string) // HTTPStatus.INTERNAL_SERVER_ERROR
    | KeyError                            // a missing dictionary key
    | IndexError                          // a list index out of range
    | ZeroDivisionError                   // Python division by zero
    | AttributeError                      // an attribute looked up on None
    | DataError                           // a value the database column refuses
    | ValueError(detail: string)          // a pydantic validator's ValueError
    | FileNotFound                        // a missing file on the local filesystem
    | BlobNotFound                        // a missing bucket or object in cloud storage
    | ValidationError                     // a pydantic model built without a required field
    | TypeError                           // `len` applied to a value that has no length
    | UndefinedOperator                   // PostgreSQL's "operator does not exist" on analysis

  /** The outcome of an operation that returns a value or raises. */
  datatype Result<+T> = Ok(value: T) | Err(error: Error)

  /** The outcome of an operation that returns nothing or raises. */
  datatype Outcome = Pass | Fail(error: Error)

  /** SQL `coalesce(x, 0)` on an integer column. */
  function Coalesce(x: Option<int>): int
  {
    if x.Some? then x.value else 0
  }

  /** PostgreSQL's cast of a `double precision` value to `int`: the nearest integer,
      a tie going to the even neighbour (the C library's `rint`). */
  function RoundHalfEven(x: real): (r: int)
    ensures x - 0.5 <= r as real <= x + 0.5
    ensures (r as real == x - 0.5 || r as real == x + 0.5) ==> r % 2 == 0
  {
    var f := x.Floor;
    var frac := x - f as real;
    if frac < 0.5 then f
    else if frac > 0.5 then f + 1
    else if f % 2 == 0 then f
    else f + 1
  }

  /** The two postconditions of RoundHalfEven leave no choice: any integer within one
      half of `x` that is even on a tie is RoundHalfEven(x). */
  lemma RoundHalfEvenUnique(x: real, r: int)
    requires x - 0.5 <= r as real <= x + 0.5
    requires (r as real == x - 0.5 || r as real == x + 0.5) ==> r % 2 == 0
    ensures r == RoundHalfEven(x)
  {
  }

  /** Python's `int()` applied to a float: truncation toward zero. */
  function Trunc(x: real): (r: int)
    ensures 0.0 <= x ==> r as real <= x < r as real + 1.0
    ensures x < 0.0 ==> r as real - 1.0 < x <= r as real
  {
    if x >= 0.0 then x.Floor else -((-x).Floor)
  }

  /** Truncation toward zero is odd: it commutes with negation, unlike Dafny's Floor. */
  lemma TruncOdd(x: real)
    ensures Trunc(-x) == -Trunc(x)
  {
    if x == 0.0 {
    } else if x > 0.0 {
      assert -x < 0.0;
    } else {
      assert -x > 0.0;
    }
  }
}
