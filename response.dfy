/** The generic success/failure reply byte (src/response.rs). */
module Responses {
  import opened Bytes
  import opened Wrappers

  /** The error of a failed conversion from a byte. */
  datatype InvalidResponse = InvalidResponse

  datatype Response = Failure | Success {

    /** `is_success`: the reply carries the success code. */
    predicate IsSuccess()
      ensures IsSuccess() <==> Code(this) == 0x01
    {
      this == Success
    }

    /** `is_failure`: the reply carries the failure code. */
    predicate IsFailure()
      ensures IsFailure() <==> Code(this) == 0x00
    {
      this == Failure
    }
  }

  /** `r as u8`. */
  function Code(r: Response): (c: uint8)
    ensures c <= 0x01
    ensures c == 0x01 <==> r == Success
  {
    match r
    case Failure => 0x00
    case Success => 0x01
  }

  /** `Response::try_from(value)`: accepts exactly the two codes, rejects every other byte. */
  function TryFrom(value: uint8): (r: Result<Response, InvalidResponse>)
    ensures r.Ok? <==> value <= 0x01
    ensures r.Ok? ==> Code(r.value) == value
    ensures r.Err? ==> r.error == InvalidResponse
  {
    match value
    case 0x00 => Ok(Failure)
    case 0x01 => Ok(Success)
    case _ => Err(InvalidResponse)
  }

  /** Converting a response to its byte and back gives the response. */
  lemma TryFromCode(r: Response)
    ensures TryFrom(Code(r)) == Ok(r)
  {
  }

  /** The documented cases: 0x00 is a failure, 0x01 a success, 0x02 is rejected. */
  lemma TryFromExamples()
    ensures TryFrom(0x00) == Ok(Failure) && TryFrom(0x00).value.IsFailure() && !TryFrom(0x00).value.IsSuccess()
    ensures TryFrom(0x01) == Ok(Success) && TryFrom(0x01).value.IsSuccess() && !TryFrom(0x01).value.IsFailure()
    ensures TryFrom(0x02) == Err(InvalidResponse)
  {
  }

  /** Exactly one of `is_success` and `is_failure` holds of every response. */
  lemma SuccessXorFailure(r: Response)
    ensures r.IsSuccess() <==> !r.IsFailure()
    ensures r.IsSuccess() <==> Code(r) == 0x01
  {
  }
}
