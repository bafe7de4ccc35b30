/**
 * Passing a decoded JSON value to a typed parameter under `declare(strict_types=1)`:
 * a value of the wrong type raises a TypeError instead of being converted.
 */
module StrictTypes {
  import opened Wrappers
  import opened Json
  import opened Exceptions

  /** A `string` parameter. */
  function AsString(v: Json): (r: Result<string>)
    ensures r.Ok? <==> v.JStr?
    ensures r.Ok? ==> v == JStr(r.value)
    ensures r.Err? ==> r.error == TypeError
  {
    match v
    case JStr(s) => Ok(s)
    case _ => Err(TypeError)
  }

  /** A `string|null` (`?string`) parameter. */
  function AsNullableString(v: Json): (r: Result<Option<string>>)
    ensures r.Ok? <==> v.JStr? || v == JNull
    ensures r == Ok(None) <==> v == JNull
    ensures r.Ok? && r.value.Some? ==> v == JStr(r.value.value)
    ensures r.Err? ==> r.error == TypeError
  {
    match v
    case JNull => Ok(None)
    case JStr(s) => Ok(Some(s))
    case _ => Err(TypeError)
  }

  /** An `array` parameter or return type. */
  function AsArray(v: Json): (r: Result<Json>)
    ensures r.Ok? <==> IsArray(v)
    ensures r.Ok? ==> r.value == v
    ensures r.Err? ==> r.error == TypeError
  {
    if IsArray(v) then Ok(v) else Err(TypeError)
  }

  /** `new PayazaException($message, $status)` with a decoded `$message` that must be a string. */
  function Failure(message: Json, status: int): (e: Error)
    ensures e.Api? <==> message.JStr?
    ensures e.Api? ==> e.exception == PayazaException(message.s, status, None)
    ensures e.TypeError? <==> !message.JStr?
  {
    match AsString(message)
    case Ok(m) => Api(Raise(m, status))
    case Err(e) => e
  }
}
