/**
 * The `Cards` resource client: `charge` (payload, name split, endpoint choice),
 * `status`, `refund` and `refundStatus`, all POSTs under `config('payaza.base_url')`.
 *
 * As for payouts, each operation is specified by a `...Run` function over the canned
 * response queue and the methods of class `CardsClient` are proved to follow it.
 */
module Cards {
  import opened Wrappers
  import opened Json
  import opened Enums
  import opened Strings
  import opened Exceptions
  import opened StrictTypes
  import opened Data
  import opened Transport
  import Payouts

  /** `baseUrl()`: the configured base URL, with `/live` appended in the LIVE environment. */
  function BaseUrl(base: string, env: Environment): (url: string)
    ensures url == base + "/live" <==> env == LIVE
    ensures url == base <==> env == TEST
  {
    base + (if env == LIVE then "/live" else "")
  }

  const TwoDsEndpoint := "/cards/mpgs/v1/2ds/card_charge"
  const ThreeDsEndpoint := "/card_charge/"

  /** The charge endpoint: the 2DS path for `authType === '2DS'` exactly, the 3DS path otherwise. */
  function ChargeEndpoint(authType: string): (endpoint: string)
    ensures endpoint == TwoDsEndpoint <==> authType == "2DS"
    ensures endpoint == ThreeDsEndpoint <==> authType != "2DS"
  {
    if authType == "2DS" then TwoDsEndpoint else ThreeDsEndpoint
  }

  /** `mapStatus()` of the cards client: like the payouts table, without `transaction_initiated`. */
  function MapStatus(status: Option<string>): (state: TransactionState)
    ensures status.None? ==> state == PENDING
    ensures state == FAILED ==> status.Some? && Lower(status.value) == "failed"
  {
    var s := Lower(status.GetOr("pending"));
    if s == "completed" || s == "successful" then SUCCESSFUL
    else if s == "processing" || s == "initialized" then PROCESSING
    else if s == "failed" then FAILED
    else PENDING
  }

  /** The `service_payload` of a charge; `names` holds `first_name`/`last_name` once they are written. */
  datatype ChargePayload = ChargePayload(
    amount: real,
    currency: string,
    transactionReference: string,
    card: Card,
    names: Option<(string, string)>)

  /** `$accountName` is truthy. */
  predicate HasAccountName(accountName: Option<string>) {
    accountName.Some? && Truthy(JStr(accountName.value))
  }

  /** `array_pad(explode(' ', $accountName, 2), 2, '')`. */
  function SplitName(accountName: string): (parts: (string, string))
    ensures ' ' !in parts.0
    ensures ' ' in accountName ==> accountName == parts.0 + " " + parts.1
    ensures ' ' !in accountName ==> parts == (accountName, "")
  {
    SplitOnce(accountName, ' ')
  }

  /** The charge payload after the conditional name write. */
  function ChargePayloadFor(amount: real, card: Card, transactionRef: string, currency: Currency,
                            accountName: Option<string>): (p: ChargePayload)
    ensures p.names.Some? <==> HasAccountName(accountName)
    ensures p.names.Some? ==> p.names.value == SplitName(accountName.value)
  {
    var p := ChargePayload(amount, Code(currency), transactionRef, card, None);
    if HasAccountName(accountName) then p.(names := Some(SplitName(accountName.value))) else p
  }

  function CardJson(card: Card): Json {
    JObj(map[
      "expiryMonth" := JInt(card.expiryMonth),
      "expiryYear" := JInt(card.expiryYear),
      "securityCode" := JStr(card.cvc),
      "cardNumber" := JStr(card.number)])
  }

  function ServiceJson(p: ChargePayload): (j: Json)
    ensures j.JObj? && ("first_name" in j.fields <==> p.names.Some?) && ("last_name" in j.fields <==> p.names.Some?)
    ensures p.names.Some? ==> j.fields["first_name"] == JStr(p.names.value.0) && j.fields["last_name"] == JStr(p.names.value.1)
  {
    var fields := map[
      "amount" := JFloat(p.amount),
      "currency" := JStr(p.currency),
      "transaction_reference" := JStr(p.transactionReference),
      "card" := CardJson(p.card)];
    JObj(match p.names
      case None => fields
      case Some((first, last)) => fields["first_name" := JStr(first)]["last_name" := JStr(last)])
  }

  /** The array the charge POST sends. */
  function ChargeJson(p: ChargePayload): Json {
    JObj(map["service_payload" := ServiceJson(p)])
  }

  /** `['service_payload' => ['transaction_reference' => $ref]]`. */
  function ReferenceJson(transactionRef: string): Json {
    JObj(map["service_payload" := JObj(map["transaction_reference" := JStr(transactionRef)])])
  }

  /** The refund payload: the reference and the amount. */
  function RefundJson(transactionRef: string, amount: real): Json {
    JObj(map["service_payload" := JObj(map["transaction_reference" := JStr(transactionRef), "amount" := JFloat(amount)])])
  }

  const ChargeFallback := "Charge failed"

  /** The state of a status answer: a decoded value that must be a string or null. */
  function StateOf(status: Json): (r: Result<TransactionState>)
    ensures r.Ok? <==> status.JStr? || status == JNull
    ensures r.Err? ==> r.error == TypeError
    ensures status == JNull ==> r == Ok(PENDING)
    ensures status.JStr? ==> r == Ok(MapStatus(Some(status.s)))
  {
    match AsNullableString(status)
    case Ok(s) => Ok(MapStatus(s))
    case Err(e) => Err(e)
  }

  /** What `charge()` makes of the POST's answer. */
  function ChargeOutcome(response: Response, transactionRef: string): (r: Result<TransactionStatus>)
    ensures !response.Successful() ==> r.Err?
    ensures r.Ok? ==> r.value.transactionId == transactionRef && r.value.raw == response.body
  {
    if !response.Successful() then
      Err(Failure(DataGet(response.body, ["message"], JStr(ChargeFallback)), response.status))
    else
      var status := DataGet(response.body, ["transaction", "transaction_status"], JNull);
      NewTransactionStatus(transactionRef, StateOf(if status == JNull then JStr("PENDING") else status), response.body)
  }

  const StatusFailure := "Unable to fetch transaction status"
  const RefundStatusFailure := "Unable to fetch refund status"
  const RefundFailure := "Refund failed"

  /** What `status()` and `refundStatus()` make of the POST's answer, with their fixed failure message. */
  function StatusOutcome(response: Response, transactionRef: string, failure: string): (r: Result<TransactionStatus>)
    ensures !response.Successful() ==> r == Err(Api(PayazaException(failure, response.status, None)))
    ensures r.Ok? ==> r.value.transactionId == transactionRef && r.value.raw == response.body
  {
    if !response.Successful() then Err(Api(Raise(failure, response.status)))
    else
      NewTransactionStatus(transactionRef,
        StateOf(DataGet(response.body, ["response_content", "transaction_status"], JNull)), response.body)
  }

  /** What `refund()` makes of the POST's answer: `$response->json('status') === 'success'`. */
  function RefundOutcome(response: Response): (r: Result<bool>)
    ensures r.Err? <==> !response.Successful()
    ensures r == Ok(true) ==> Field(response.body, "status") == Some(JStr("success"))
  {
    if !response.Successful() then Err(Api(Raise(RefundFailure, response.status)))
    else Ok(DataGet(response.body, ["status"], JNull) == JStr("success"))
  }

  /** `charge($amount, $card, $transactionRef, $currency, $accountName, $authType)`. */
  function ChargeRun(base: string, env: Environment, amount: real, card: Card, transactionRef: string,
                     currency: Currency, accountName: Option<string>, authType: string, queue: seq<Response>)
    : (x: Exchange<TransactionStatus>)
    ensures |x.requests| == 1 && x.requests[0].verb == POST && x.remaining == Rest(queue)
    ensures StartsWith(x.requests[0].url, BaseUrl(base, env))
    ensures x.requests[0].payload == Some(ChargeJson(ChargePayloadFor(amount, card, transactionRef, currency, accountName)))
    ensures x.result.Ok? ==> x.result.value.transactionId == transactionRef
  {
    var payload := ChargePayloadFor(amount, card, transactionRef, currency, accountName);
    Exchange(ChargeOutcome(Next(queue), transactionRef),
      [Request(POST, BaseUrl(base, env) + ChargeEndpoint(authType), Some(ChargeJson(payload)))], Rest(queue))
  }

  /** `status($transactionRef)`. */
  function StatusRun(base: string, env: Environment, transactionRef: string, queue: seq<Response>): (x: Exchange<TransactionStatus>)
    ensures |x.requests| == 1 && x.requests[0].verb == POST && x.remaining == Rest(queue)
    ensures StartsWith(x.requests[0].url, BaseUrl(base, env))
    ensures x.requests[0].url == BaseUrl(base, env) + "/card/card_charge/transaction_status"
    ensures x.requests[0].payload == Some(ReferenceJson(transactionRef))
    ensures x.result.Ok? ==> x.result.value.transactionId == transactionRef
  {
    Exchange(StatusOutcome(Next(queue), transactionRef, StatusFailure),
      [Request(POST, BaseUrl(base, env) + "/card/card_charge/transaction_status", Some(ReferenceJson(transactionRef)))],
      Rest(queue))
  }

  /** `refund($transactionRef, $amount)`. */
  function RefundRun(base: string, env: Environment, transactionRef: string, amount: real, queue: seq<Response>): (x: Exchange<bool>)
    ensures |x.requests| == 1 && x.requests[0].verb == POST && x.remaining == Rest(queue)
    ensures StartsWith(x.requests[0].url, BaseUrl(base, env))
    ensures x.requests[0].url == BaseUrl(base, env) + "/card/refund"
    ensures x.requests[0].payload == Some(RefundJson(transactionRef, amount))
    ensures x.result.Err? <==> !Next(queue).Successful()
  {
    Exchange(RefundOutcome(Next(queue)),
      [Request(POST, BaseUrl(base, env) + "/card/refund", Some(RefundJson(transactionRef, amount)))], Rest(queue))
  }

  /** `refundStatus($refundTransactionRef)`. */
  function RefundStatusRun(base: string, env: Environment, transactionRef: string, queue: seq<Response>): (x: Exchange<TransactionStatus>)
    ensures |x.requests| == 1 && x.requests[0].verb == POST && x.remaining == Rest(queue)
    ensures StartsWith(x.requests[0].url, BaseUrl(base, env))
    ensures x.requests[0].url == BaseUrl(base, env) + "/card/refund/status"
    ensures x.requests[0].payload == Some(ReferenceJson(transactionRef))
    ensures x.result.Ok? ==> x.result.value.transactionId == transactionRef
  {
    Exchange(StatusOutcome(Next(queue), transactionRef, RefundStatusFailure),
      [Request(POST, BaseUrl(base, env) + "/card/refund/status", Some(ReferenceJson(transactionRef)))], Rest(queue))
  }

  // -------------------------------------------------------------- properties

  /** The cards table ignores case. */
  lemma MapStatusIgnoresCase(s: string)
    ensures MapStatus(Some(s)) == MapStatus(Some(Lower(s)))
  {
    LowerIdempotent(s);
  }

  /** The two generic tables differ only at "transaction_initiated", which cards leave PENDING. */
  lemma CardAndPayoutTablesDiffer(status: Option<string>)
    ensures status.Some? && Lower(status.value) == "transaction_initiated" ==>
      MapStatus(status) == PENDING && Payouts.MapStatus(status) == PROCESSING
    ensures status.None? || Lower(status.value) != "transaction_initiated" ==>
      MapStatus(status) == Payouts.MapStatus(status)
  {
  }

  /** FAILED only for "failed" in any case; null, "transaction_initiated" and every unknown string are PENDING. */
  lemma MapStatusFailedOnlyWhenSaid(status: Option<string>)
    ensures MapStatus(status) == FAILED <==> status.Some? && Lower(status.value) == "failed"
    ensures MapStatus(status) == PENDING <==>
      status.None? || Lower(status.value) !in {"completed", "successful", "processing", "initialized", "failed"}
  {
    if status.None? {
      assert Lower("pending") == "pending";
    }
  }

  /** The name split: text before the first space, and the rest (empty without a space); no name, no keys. */
  lemma NameSplit(amount: real, card: Card, transactionRef: string, currency: Currency, accountName: Option<string>)
    ensures var p := ChargePayloadFor(amount, card, transactionRef, currency, accountName);
      var fields := ServiceJson(p).fields;
      ("first_name" in fields <==> HasAccountName(accountName)) &&
      ("last_name" in fields <==> HasAccountName(accountName)) &&
      (HasAccountName(accountName) ==>
        var first := fields["first_name"].s;
        var last := fields["last_name"].s;
        fields["first_name"].JStr? && fields["last_name"].JStr? && ' ' !in first &&
        (' ' in accountName.value ==> accountName.value == first + " " + last) &&
        (' ' !in accountName.value ==> first == accountName.value && last == ""))
  {
  }

  /** The other charge fields do not depend on the name. */
  lemma ChargePayloadFields(amount: real, card: Card, transactionRef: string, currency: Currency, accountName: Option<string>)
    ensures var p := ChargePayloadFor(amount, card, transactionRef, currency, accountName);
      p.amount == amount && p.currency == Code(currency) && p.transactionReference == transactionRef && p.card == card
  {
  }

  /** `charge()` throws on every non-2xx answer, with `message` or "Charge failed" and the HTTP status; otherwise only a TypeError can intervene. */
  lemma ChargeFailure(response: Response, transactionRef: string)
    ensures var r := ChargeOutcome(response, transactionRef);
      var m := DataGet(response.body, ["message"], JStr(ChargeFallback));
      (!response.Successful() ==> r.Err? && r.error == Failure(m, response.status)) &&
      (r.Err? && r.error.Api? <==> !response.Successful() && m.JStr?) &&
      (response.Successful() && r.Err? ==> r.error == TypeError)
  {
  }

  /** A successful charge reports the caller's reference, the whole body, and the state of `transaction.transaction_status`, PENDING when absent. */
  lemma ChargeSuccess(response: Response, transactionRef: string)
    requires response.Successful() && IsArray(response.body)
    ensures var status := DataGet(response.body, ["transaction", "transaction_status"], JNull);
      var r := ChargeOutcome(response, transactionRef);
      (status == JNull ==> r == Ok(TransactionStatus(transactionRef, PENDING, response.body))) &&
      (status.JStr? ==> r == Ok(TransactionStatus(transactionRef, MapStatus(Some(status.s)), response.body)))
  {
    assert Lower("PENDING") == "pending";
  }

  /** The charge issues one POST: the base URL, then the endpoint chosen by `authType`, with the payload. */
  lemma ChargeRequest(base: string, env: Environment, amount: real, card: Card, transactionRef: string,
                      currency: Currency, accountName: Option<string>, authType: string, queue: seq<Response>)
    ensures var x := ChargeRun(base, env, amount, card, transactionRef, currency, accountName, authType, queue);
      |x.requests| == 1 && x.requests[0].verb == POST &&
      (authType == "2DS" ==> x.requests[0].url == BaseUrl(base, env) + TwoDsEndpoint) &&
      (authType != "2DS" ==> x.requests[0].url == BaseUrl(base, env) + ThreeDsEndpoint) &&
      x.remaining == Rest(queue) &&
      x.requests[0].payload == Some(ChargeJson(ChargePayloadFor(amount, card, transactionRef, currency, accountName))) &&
      (x.result.Ok? ==> x.result.value.transactionId == transactionRef)
  {
  }

  /** What the charge POST sends under `service_payload`: the amount, the currency code, the reference and the card, plus the split names for a truthy account name. */
  lemma ChargeRequestPayload(base: string, env: Environment, amount: real, card: Card, transactionRef: string,
                             currency: Currency, accountName: Option<string>, authType: string, queue: seq<Response>)
    ensures var x := ChargeRun(base, env, amount, card, transactionRef, currency, accountName, authType, queue);
      x.requests[0].payload.Some? &&
      var sp := DataGet(x.requests[0].payload.value, ["service_payload"], JNull);
      sp.JObj? &&
      sp.fields.Keys >= {"amount", "currency", "transaction_reference", "card"} &&
      sp.fields["amount"] == JFloat(amount) && sp.fields["currency"] == JStr(Code(currency)) &&
      sp.fields["transaction_reference"] == JStr(transactionRef) && sp.fields["card"] == CardJson(card) &&
      ("first_name" in sp.fields <==> HasAccountName(accountName)) &&
      ("last_name" in sp.fields <==> HasAccountName(accountName)) &&
      (HasAccountName(accountName) ==>
        sp.fields["first_name"] == JStr(SplitName(accountName.value).0) &&
        sp.fields["last_name"] == JStr(SplitName(accountName.value).1))
  {
    var p := ChargePayloadFor(amount, card, transactionRef, currency, accountName);
    assert DataGet(ChargeJson(p), ["service_payload"], JNull) == ServiceJson(p);
    ServiceJsonFields(p);
  }

  /** The fixed keys of a charge's `service_payload` hold the payload's fields. */
  lemma ServiceJsonFields(p: ChargePayload)
    ensures var j := ServiceJson(p);
      j.fields.Keys >= {"amount", "currency", "transaction_reference", "card"} &&
      j.fields["amount"] == JFloat(p.amount) && j.fields["currency"] == JStr(p.currency) &&
      j.fields["transaction_reference"] == JStr(p.transactionReference) && j.fields["card"] == CardJson(p.card)
  {
  }

  /** `status()` and `refundStatus()` POST only the reference, at their own paths; `refund()` POSTs the reference and the amount. */
  lemma CardQueryRequests(base: string, env: Environment, transactionRef: string, amount: real, queue: seq<Response>)
    ensures var s := StatusRun(base, env, transactionRef, queue).requests[0];
      s.url == BaseUrl(base, env) + "/card/card_charge/transaction_status" && s.payload.Some? &&
      DataGet(s.payload.value, ["service_payload"], JNull) == JObj(map["transaction_reference" := JStr(transactionRef)])
    ensures var f := RefundRun(base, env, transactionRef, amount, queue).requests[0];
      f.url == BaseUrl(base, env) + "/card/refund" && f.payload.Some? &&
      DataGet(f.payload.value, ["service_payload"], JNull) ==
        JObj(map["transaction_reference" := JStr(transactionRef), "amount" := JFloat(amount)])
    ensures var t := RefundStatusRun(base, env, transactionRef, queue).requests[0];
      t.url == BaseUrl(base, env) + "/card/refund/status" && t.payload.Some? &&
      DataGet(t.payload.value, ["service_payload"], JNull) == JObj(map["transaction_reference" := JStr(transactionRef)])
  {
  }

  /** A 3DS charge reported as "successful" and one reported as "pending". */
  lemma ChargeScenarios(transactionRef: string)
    ensures var body := JObj(map["transaction" := JObj(map["transaction_status" := JStr("successful")])]);
      ChargeOutcome(Response(200, body), transactionRef) == Ok(TransactionStatus(transactionRef, SUCCESSFUL, body))
    ensures var body := JObj(map["do3dsAuth" := JBool(true), "transaction" := JObj(map["transaction_status" := JStr("pending")])]);
      ChargeOutcome(Response(200, body), transactionRef) == Ok(TransactionStatus(transactionRef, PENDING, body))
  {
    assert Lower("successful") == "successful";
    assert Lower("pending") == "pending";
  }

  /** `status()`/`refundStatus()`: the fixed message on any non-2xx answer; otherwise the reference, the body, and PENDING for a missing state. */
  lemma StatusContract(response: Response, transactionRef: string, failure: string)
    ensures var r := StatusOutcome(response, transactionRef, failure);
      var status := DataGet(response.body, ["response_content", "transaction_status"], JNull);
      (!response.Successful() ==> r == Err(Api(PayazaException(failure, response.status, None)))) &&
      (r.Ok? ==> r.value.transactionId == transactionRef && r.value.raw == response.body) &&
      (response.Successful() && IsArray(response.body) && status == JNull ==>
        r == Ok(TransactionStatus(transactionRef, PENDING, response.body))) &&
      (response.Successful() && IsArray(response.body) && status.JStr? ==>
        r == Ok(TransactionStatus(transactionRef, MapStatus(Some(status.s)), response.body)))
  {
    assert Lower("pending") == "pending";
  }

  /** `refund()`: "Refund failed" on a non-2xx answer; otherwise true exactly when `status` is the string "success". */
  lemma RefundContract(response: Response)
    ensures var r := RefundOutcome(response);
      (r.Err? <==> !response.Successful()) &&
      (r.Err? ==> r.error == Api(PayazaException(RefundFailure, response.status, None))) &&
      (r == Ok(true) <==> response.Successful() && Field(response.body, "status") == Some(JStr("success")))
  {
  }

  // ------------------------------------------------------------------ class

  /** The client object: the shared HTTP transport, the environment and `config('payaza.base_url')`. */
  class CardsClient {
    const http: Http
    const env: Environment
    const base: string

    constructor (http: Http, env: Environment, base: string)
      ensures this.http == http && this.env == env && this.base == base
    {
      this.http := http;
      this.env := env;
      this.base := base;
    }

    /** `charge(...)`: the payload literal, the in-place name write, the endpoint choice, one POST. */
    method Charge(amount: real, card: Card, transactionRef: string, currency: Currency := USD,
                  accountName: Option<string> := None, authType: string := "3DS")
      returns (r: Result<TransactionStatus>)
      modifies http
      ensures var x := ChargeRun(base, env, amount, card, transactionRef, currency, accountName, authType, old(http.queue));
        r == x.result && http.trace == old(http.trace) + x.requests && http.queue == x.remaining
    {
      var payload := ChargePayload(amount, Code(currency), transactionRef, card, None);
      if accountName.Some? && Truthy(JStr(accountName.value)) {
        var parts := SplitOnce(accountName.value, ' ');
        payload := payload.(names := Some(parts));
      }
      var endpoint := if authType == "2DS" then TwoDsEndpoint else ThreeDsEndpoint;
      var response := http.Post(BaseUrl(base, env) + endpoint, ChargeJson(payload));
      r := ChargeOutcome(response, transactionRef);
    }

    /** `status($transactionRef)`. */
    method Status(transactionRef: string) returns (r: Result<TransactionStatus>)
      modifies http
      ensures var x := StatusRun(base, env, transactionRef, old(http.queue));
        r == x.result && http.trace == old(http.trace) + x.requests && http.queue == x.remaining
    {
      var response := http.Post(BaseUrl(base, env) + "/card/card_charge/transaction_status", ReferenceJson(transactionRef));
      r := StatusOutcome(response, transactionRef, StatusFailure);
    }

    /** `refund($transactionRef, $amount)`. */
    method Refund(transactionRef: string, amount: real) returns (r: Result<bool>)
      modifies http
      ensures var x := RefundRun(base, env, transactionRef, amount, old(http.queue));
        r == x.result && http.trace == old(http.trace) + x.requests && http.queue == x.remaining
    {
      var response := http.Post(BaseUrl(base, env) + "/card/refund", RefundJson(transactionRef, amount));
      r := RefundOutcome(response);
    }

    /** `refundStatus($refundTransactionRef)`. */
    method RefundStatus(refundTransactionRef: string) returns (r: Result<TransactionStatus>)
      modifies http
      ensures var x := RefundStatusRun(base, env, refundTransactionRef, old(http.queue));
        r == x.result && http.trace == old(http.trace) + x.requests && http.queue == x.remaining
    {
      var response := http.Post(BaseUrl(base, env) + "/card/refund/status", ReferenceJson(refundTransactionRef));
      r := StatusOutcome(response, refundTransactionRef, RefundStatusFailure);
    }
  }
}
