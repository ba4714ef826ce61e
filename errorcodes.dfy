/** The closed set of error codes a Farm puts in its error envelopes. */
module ErrorCodes {
  import opened JsValues

  datatype ErrorCode =
    | UnexpectedError
    | InvalidShepardId
    | InvalidShepardQuery
    | InvalidBehbbleId
    | NoQueryProvided
    | ShepardNotFound
    | ReachedCapacity
    | CustomError

  /** The number each code is sent as on the wire, from 1 to 8. */
  function Code(e: ErrorCode): (n: int)
    ensures 1 <= n <= 8
  {
    match e
    case UnexpectedError => 1
    case InvalidShepardId => 2
    case InvalidShepardQuery => 3
    case InvalidBehbbleId => 4
    case NoQueryProvided => 5
    case ShepardNotFound => 6
    case ReachedCapacity => 7
    case CustomError => 8
  }

  /** The code a number denotes, if any: exactly the numbers 1 to 8 denote one. */
  function FromCode(n: int): (e: Option<ErrorCode>)
    ensures e.Some? <==> 1 <= n <= 8
    ensures e.Some? ==> Code(e.value) == n
    ensures forall c: ErrorCode :: Code(c) == n ==> e == Some(c)
  {
    if n == 1 then Some(UnexpectedError)
    else if n == 2 then Some(InvalidShepardId)
    else if n == 3 then Some(InvalidShepardQuery)
    else if n == 4 then Some(InvalidBehbbleId)
    else if n == 5 then Some(NoQueryProvided)
    else if n == 6 then Some(ShepardNotFound)
    else if n == 7 then Some(ReachedCapacity)
    else if n == 8 then Some(CustomError)
    else None
  }
}
