/**
 * `PayazaException` and the outcomes an operation of the SDK can end in.
 */
module Exceptions {
  import opened Wrappers
  import opened Json
  import opened Strings

  const DefaultMessage := "Payaza API error"
  const ResponseHeading := "\n\nAPI Response:\n"

  /** A thrown `PayazaException`: its final message, its code and the readonly `responseData`. */
  datatype PayazaException = PayazaException(message: string, code: int, responseData: Option<Json>)

  /** `if ($this->responseData)`: a non-null, non-empty array. */
  predicate HasResponseData(responseData: Option<Json>) {
    responseData.Some? && Truthy(responseData.value)
  }

  /**
   * The constructor. `encode` stands for `json_encode(..., JSON_PRETTY_PRINT)`,
   * which is not modelled; the `previous` throwable is not modelled either.
   */
  function NewPayazaException(
    encode: Json -> string,
    message: string := DefaultMessage,
    code: int := 0,
    responseData: Option<Json> := None
  ): (e: PayazaException)
    requires responseData.Some? ==> IsArray(responseData.value)
    ensures e.code == code && e.responseData == responseData
    ensures StartsWith(e.message, message)
    ensures e.message == message <==> !HasResponseData(responseData)
    ensures HasResponseData(responseData) ==>
      e.message == message + ResponseHeading + encode(responseData.value)
  {
    var full := if HasResponseData(responseData)
      then message + ResponseHeading + encode(responseData.value)
      else message;
    assert full[..|message|] == message;
    PayazaException(full, code, responseData)
  }

  /** `new PayazaException()` with no arguments. */
  lemma DefaultException(encode: Json -> string)
    ensures NewPayazaException(encode) == PayazaException("Payaza API error", 0, None)
  {
  }

  /** The constructor keeps the response data verbatim and appends its encoding after the heading. */
  lemma MessageWithResponseData(encode: Json -> string, message: string, code: int, data: Json)
    requires IsArray(data) && Truthy(data)
    ensures var e := NewPayazaException(encode, message, code, Some(data));
      e.responseData == Some(data) &&
      e.message[|message|..] == ResponseHeading + encode(data)
  {
  }

  /** The resource clients throw without response data; the encoder then plays no part. */
  function Raise(message: string, code: int := 0): (e: PayazaException)
    ensures forall encode: Json -> string :: e == NewPayazaException(encode, message, code, None)
  {
    PayazaException(message, code, None)
  }

  /** What ends an operation instead of its return value. */
  datatype Error =
    | Api(exception: PayazaException)    // a PayazaException
    | InvalidArgument(message: string)   // an \InvalidArgumentException (configuration)
    | TypeError                          // PHP's \TypeError under strict_types

  datatype Result<+T> = Ok(value: T) | Err(error: Error)
}
