/**
 * Decoded JSON as PHP sees it after `json_decode($body, true)`, together with the
 * few pieces of PHP/Laravel semantics the resource clients rely on: truthiness,
 * `isset`/`??` on an array offset, `data_get` paths and loose `==`.
 */
module Json {
  import opened Wrappers

  datatype Json =
    | JNull
    | JBool(b: bool)
    | JInt(i: int)
    | JFloat(r: real)
    | JStr(s: string)
    | JArr(items: seq<Json>)
    | JObj(fields: map<string, Json>)

  /** PHP truthiness (`if ($v)`, `!$v`, `empty($v)` negated). */
  predicate Truthy(v: Json)
    ensures Truthy(v) <==>
      v != JNull && v != JBool(false) && v != JInt(0) && v != JFloat(0.0) &&
      v != JStr("") && v != JStr("0") && v != JArr([]) && v != JObj(map[])
  {
    match v
    case JNull => false
    case JBool(b) => b
    case JInt(i) => i != 0
    case JFloat(r) => r != 0.0
    case JStr(s) => s != "" && s != "0"
    case JArr(items) => items != []
    case JObj(fields) => fields != map[]
  }

  /** A value that PHP holds as an `array` (a list or an associative array). */
  predicate IsArray(v: Json) {
    v.JArr? || v.JObj?
  }

  /**
   * `$v[$key]` for a non-numeric string key, when the key exists (Arr::exists).
   * A list has only integer keys, and a scalar has no string offsets.
   */
  function Field(v: Json, key: string): (r: Option<Json>)
    ensures r.Some? <==> v.JObj? && key in v.fields
    ensures r.Some? ==> r.value == v.fields[key]
  {
    if v.JObj? && key in v.fields then Some(v.fields[key]) else None
  }

  /** `isset($v[$key])`: the key exists and its value is not null. */
  predicate Isset(v: Json, key: string) {
    Field(v, key).Some? && Field(v, key).value != JNull
  }

  /** `$v[$key] ?? $fallback`. */
  function Coalesce(v: Json, key: string, fallback: Json): (r: Json)
    ensures Isset(v, key) ==> r == v.fields[key]
    ensures !Isset(v, key) ==> r == fallback
    ensures r != JNull || fallback == JNull
  {
    if Isset(v, key) then v.fields[key] else fallback
  }

  /**
   * Laravel's `data_get($v, 'k1.k2...', $default)` (and `$response->json($path, $default)`):
   * the default is returned as soon as a segment is missing; a present null is returned as null.
   */
  function DataGet(v: Json, path: seq<string>, default: Json): (r: Json)
    ensures path == [] ==> r == v
    ensures path != [] && Field(v, path[0]).None? ==> r == default
    ensures |path| == 1 && Field(v, path[0]).Some? ==> r == v.fields[path[0]]
    decreases |path|
  {
    if path == [] then v
    else match Field(v, path[0])
      case None => default
      case Some(child) => DataGet(child, path[1..], default)
  }

  /** A present first key: `data_get` continues with the rest of the path inside that value. */
  lemma DataGetStep(v: Json, key: string, rest: seq<string>, default: Json)
    requires Field(v, key).Some?
    ensures DataGet(v, [key] + rest, default) == DataGet(v.fields[key], rest, default)
  {
    assert ([key] + rest)[1..] == rest;
  }

  /** A two-segment path `k1.k2`: the nested value when both keys are present, the default otherwise. */
  lemma DataGetNested(v: Json, k1: string, k2: string, default: Json)
    ensures DataGet(v, [k1, k2], default) ==
      if Field(v, k1).Some? && Field(v.fields[k1], k2).Some? then v.fields[k1].fields[k2] else default
  {
    if Field(v, k1).Some? {
      DataGetStep(v, k1, [k2], default);
    }
  }

  /** Every segment of `path` is present, one level inside the other. */
  predicate PathPresent(v: Json, path: seq<string>)
    decreases |path|
  {
    path == [] || (Field(v, path[0]).Some? && PathPresent(v.fields[path[0]], path[1..]))
  }

  /** `data_get` along `p + q` through a present prefix `p` is `data_get` of `q` inside what `p` reaches. */
  lemma {:induction false} DataGetConcat(v: Json, p: seq<string>, q: seq<string>, default: Json)
    requires PathPresent(v, p)
    ensures DataGet(v, p + q, default) == DataGet(DataGet(v, p, default), q, default)
    decreases |p|
  {
    if p == [] {
      assert p + q == q;
    } else {
      assert (p + q)[0] == p[0];
      assert (p + q)[1..] == p[1..] + q;
      DataGetConcat(v.fields[p[0]], p[1..], q, default);
    }
  }

  /** PHP 8 `$v == $code` where `$code` is a non-empty, non-numeric string such as a currency code. */
  predicate LooselyEqualsCode(v: Json, code: string)
    ensures v.JStr? ==> (LooselyEqualsCode(v, code) <==> v.s == code)
    ensures LooselyEqualsCode(v, code) && code != "" && code != "0" ==> Truthy(v)
  {
    v == JStr(code) || v == JBool(true)
  }

  /** PHP 8 `$v == 200` for a non-null decoded value (numeric strings other than "200" are not modelled). */
  predicate LooselyEquals200(v: Json)
    ensures v.JInt? ==> (LooselyEquals200(v) <==> v.i == 200)
    ensures LooselyEquals200(v) ==> Truthy(v)
  {
    v == JInt(200) || v == JFloat(200.0) || v == JBool(true) || v == JStr("200")
  }
}
