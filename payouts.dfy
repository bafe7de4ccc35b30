/**
 * The `Payouts` resource client: the status tables, the currency to transaction-type
 * table, the settlement-reference lookup, the single-beneficiary payloads, and the
 * operations `send`, `sendMobileMoney`, `sendGHSBankTransfer`, `status` and `getBanks`.
 *
 * Each operation is specified by a `...Run` function over the canned response queue;
 * the methods of class `PayoutsClient` are proved to issue exactly those requests and to
 * return exactly that outcome.
 */
module Payouts {
  import opened Wrappers
  import opened Json
  import opened Enums
  import opened Strings
  import opened Exceptions
  import opened StrictTypes
  import opened Data
  import opened Transport
  import opened ResolvesUrls

  // ---------------------------------------------------------------- tables

  const PayazaApi := "https://api.payaza.africa"

  /** `baseUrl()`: the fixed API host, with `/live` appended in the LIVE environment. */
  function BaseUrl(env: Environment): (url: string)
    ensures url == PayazaApi + "/live" <==> env == LIVE
    ensures url == PayazaApi <==> env == TEST
  {
    PayazaApi + (if env == LIVE then "/live" else "")
  }

  /** `mapStatus()`: the generic table, read after ASCII lower-casing; null reads as "pending". */
  function MapStatus(status: Option<string>): (state: TransactionState)
    ensures status.None? ==> state == PENDING
    ensures state == FAILED ==> status.Some? && Lower(status.value) == "failed"
  {
    var s := Lower(status.GetOr("pending"));
    if s == "completed" || s == "successful" then SUCCESSFUL
    else if s == "processing" || s == "initialized" || s == "transaction_initiated" then PROCESSING
    else if s == "failed" then FAILED
    else PENDING
  }

  /** `mapPayoutStatus()`: the NIP table, compared exactly (case-sensitive); null and anything else is PENDING. */
  function MapPayoutStatus(status: Option<string>): (state: TransactionState)
    ensures status.None? ==> state == PENDING
    ensures state != PENDING ==> status.Some? && |status.value| > 0 && 'A' <= status.value[0] <= 'Z'
  {
    if status == Some("NIP_SUCCESS") then SUCCESSFUL
    else if status == Some("NIP_PENDING") || status == Some("TRANSACTION_INITIATED") then PROCESSING
    else if status == Some("NIP_FAILURE") then FAILED
    else PENDING
  }

  /** `getTransactionType()`. */
  function TransactionType(currency: Currency): (t: string)
    ensures t == "ghipps" <==> currency == GHS
    ensures t == "mobile_money" <==> currency in {KES, UGX, TZS, XOF}
    ensures t == "nuban" <==> currency in {NGN, USD}
  {
    match currency
    case NGN => "nuban"
    case GHS => "ghipps"
    case KES => "mobile_money"
    case UGX => "mobile_money"
    case TZS => "mobile_money"
    case XOF => "mobile_money"
    case USD => "nuban"
  }

  // ------------------------------------------------------ account reference

  const ReferencePrefix := "Failed to get account reference: "
  const NotRetrieved := "Failed to retrieve account reference"

  function NoAccountMessage(currency: Currency): string {
    "No account found for currency " + Code(currency)
  }

  /** `data_get($account, 'currency') == $code`, with PHP 8 loose `==` against a currency code. */
  predicate HasCurrency(account: Json, code: string)
    ensures HasCurrency(account, code) ==> Isset(account, "currency")
    ensures Field(account, "currency").Some? && account.fields["currency"].JStr? ==>
      (HasCurrency(account, code) <==> account.fields["currency"].s == code)
  {
    LooselyEqualsCode(DataGet(account, ["currency"], JNull), code)
  }

  /** `collect($accounts)->firstWhere('currency', $code)`: the first account whose currency matches. */
  function FirstWhere(accounts: seq<Json>, code: string): (r: Option<Json>)
    ensures r.None? <==> forall j :: 0 <= j < |accounts| ==> !HasCurrency(accounts[j], code)
    ensures r.Some? ==> exists i :: 0 <= i < |accounts| && accounts[i] == r.value && HasCurrency(accounts[i], code)
  {
    if accounts == [] then None
    else if HasCurrency(accounts[0], code) then Some(accounts[0])
    else
      var r := FirstWhere(accounts[1..], code);
      assert forall j :: 1 <= j < |accounts| ==> accounts[j] == accounts[1..][j - 1];
      r
  }

  /** Whatever precedes the first match, the lookup returns exactly the first match. */
  lemma {:induction false} FirstWhereIsFirst(accounts: seq<Json>, code: string, i: nat)
    requires i < |accounts| && HasCurrency(accounts[i], code)
    requires forall j :: 0 <= j < i ==> !HasCurrency(accounts[j], code)
    ensures FirstWhere(accounts, code) == Some(accounts[i])
    decreases i
  {
    if i > 0 {
      assert !HasCurrency(accounts[0], code);
      FirstWhereIsFirst(accounts[1..], code, i - 1);
    }
  }

  /** A string `currency` field loosely equals the code of at most one currency. */
  lemma StringCurrencyMatchesOne(account: Json, a: Currency, b: Currency)
    requires DataGet(account, ["currency"], JNull).JStr?
    requires HasCurrency(account, Code(a)) && HasCurrency(account, Code(b))
    ensures a == b
  {
    CodeInjective(a, b);
  }

  /** A `currency` field holding `true` loosely equals every code, so such an account matches every currency. */
  lemma TrueCurrencyMatchesAll(account: Json, c: Currency)
    requires DataGet(account, ["currency"], JNull) == JBool(true)
    ensures HasCurrency(account, Code(c))
  {
  }

  /** An account that matches a currency is a non-empty array, so `if (!$account)` only rejects "no match". */
  lemma MatchedAccountIsTruthy(account: Json, code: string)
    requires HasCurrency(account, code)
    ensures account.JObj? && "currency" in account.fields && Truthy(account)
  {
    assert DataGet(account, ["currency"], JNull) != JNull;
  }

  /**
   * The accounts of `$response->json('data', [])`. A scalar, null or missing `data` holds no
   * account that can match; an object-shaped `data` is read as holding none.
   */
  function AccountList(body: Json): (accounts: seq<Json>)
    ensures Field(body, "data").Some? && body.fields["data"].JArr? ==> accounts == body.fields["data"].items
    ensures Field(body, "data").None? ==> accounts == []
  {
    match DataGet(body, ["data"], JArr([]))
    case JArr(items) => items
    case _ => []
  }

  /** The body of the `try` in `getAccountReference()` once the GET has answered. */
  function LookupReference(response: Response, currency: Currency): (r: Result<Option<string>>)
    ensures !response.Successful() ==> r == Err(Api(PayazaException(NotRetrieved, 0, None)))
    ensures r.Err? ==> r.error == TypeError || (r.error.Api? && r.error.exception.code == 0 && r.error.exception.responseData == None)
    ensures r.Ok? ==> FirstWhere(AccountList(response.body), Code(currency)).Some?
  {
    if !response.Successful() then Err(Api(Raise(NotRetrieved)))
    else
      var account := FirstWhere(AccountList(response.body), Code(currency));
      if account.None? || !Truthy(account.value) then Err(Api(Raise(NoAccountMessage(currency))))
      else AsNullableString(Coalesce(account.value, "payazaAccountReference", JNull))
  }

  /**
   * The `catch (\Exception $e)`: a PayazaException or an InvalidArgumentException is rethrown
   * as a PayazaException with the prefix and code 0; a TypeError is not an \Exception.
   */
  function CatchLookupError<T>(r: Result<T>): (caught: Result<T>)
    ensures caught.Ok? <==> r.Ok?
    ensures r.Ok? || r == Err(TypeError) ==> caught == r
    ensures r.Err? && (r.error.Api? || r.error.InvalidArgument?) ==>
      caught.Err? && caught.error.Api? && caught.error.exception.code == 0 &&
      caught.error.exception.responseData == None && StartsWith(caught.error.exception.message, ReferencePrefix)
  {
    match r
    case Err(Api(e)) => Err(Api(Raise(ReferencePrefix + e.message)))
    case Err(InvalidArgument(m)) => Err(Api(Raise(ReferencePrefix + m)))
    case _ => r
  }

  /** `getAccountReference($currency)`: resolve `account_info`, GET it, pick the reference. */
  function AccountReferenceRun(urls: map<string, Json>, env: Environment, currency: Currency, queue: seq<Response>)
    : (x: Exchange<Option<string>>)
    ensures |x.requests| <= 1 && NoPost(x.requests)
    ensures x.requests == [] <==> ResolveUrl(urls, "account_info", env).Err?
    ensures x.requests == [] ==> x.remaining == queue && x.result.Err?
    ensures ResolveUrl(urls, "account_info", env).Ok? ==>
      x.requests == [Request(GET, ResolveUrl(urls, "account_info", env).value, None)] && x.remaining == Rest(queue)
  {
    match ResolveUrl(urls, "account_info", env)
    case Err(e) => Exchange(CatchLookupError(Err(e)), [], queue)
    case Ok(url) => Exchange(CatchLookupError(LookupReference(Next(queue), currency)), [Request(GET, url, None)], Rest(queue))
  }

  /** The lookup issues at most one request, a GET, and every failure it reports except a TypeError carries the prefix and code 0. */
  lemma LookupShape(urls: map<string, Json>, env: Environment, currency: Currency, queue: seq<Response>)
    ensures var x := AccountReferenceRun(urls, env, currency, queue);
      |x.requests| <= 1 && NoPost(x.requests) &&
      (x.result.Err? ==>
        (x.result.error == TypeError ||
         (x.result.error.Api? && x.result.error.exception.code == 0 &&
          x.result.error.exception.responseData == None &&
          StartsWith(x.result.error.exception.message, ReferencePrefix))))
  {
    var x := AccountReferenceRun(urls, env, currency, queue);
    if x.result.Err? && x.result.error.Api? {
      var m := x.result.error.exception.message;
      assert m[..|ReferencePrefix|] == ReferencePrefix;
    }
  }

  /** A missing or falsy `account_info` entry is reported under the prefix, without any request. */
  lemma LookupWithoutUrl(urls: map<string, Json>, env: Environment, currency: Currency, queue: seq<Response>)
    requires "account_info" !in urls || !Truthy(urls["account_info"])
    ensures AccountReferenceRun(urls, env, currency, queue)
         == Exchange(Err(Api(PayazaException(ReferencePrefix + NotFoundMessage("account_info"), 0, None))), [], queue)
  {
  }

  /** A non-2xx answer to the lookup. */
  lemma LookupRejected(urls: map<string, Json>, env: Environment, currency: Currency, queue: seq<Response>)
    requires ResolveUrl(urls, "account_info", env).Ok? && !Next(queue).Successful()
    ensures AccountReferenceRun(urls, env, currency, queue).result
         == Err(Api(PayazaException(ReferencePrefix + NotRetrieved, 0, None)))
  {
  }

  /** No account with the currency. */
  lemma LookupNoMatch(urls: map<string, Json>, env: Environment, currency: Currency, queue: seq<Response>)
    requires ResolveUrl(urls, "account_info", env).Ok? && Next(queue).Successful()
    requires forall a :: a in AccountList(Next(queue).body) ==> !HasCurrency(a, Code(currency))
    ensures AccountReferenceRun(urls, env, currency, queue).result
         == Err(Api(PayazaException(ReferencePrefix + NoAccountMessage(currency), 0, None)))
  {
    var accounts := AccountList(Next(queue).body);
    assert forall j :: 0 <= j < |accounts| ==> accounts[j] in accounts;
  }

  /** The reference of the first matching account: its `payazaAccountReference`, or null when that is absent. */
  lemma LookupFirstMatch(urls: map<string, Json>, env: Environment, currency: Currency, queue: seq<Response>, i: nat)
    requires ResolveUrl(urls, "account_info", env).Ok? && Next(queue).Successful()
    requires var accounts := AccountList(Next(queue).body);
      i < |accounts| && HasCurrency(accounts[i], Code(currency)) &&
      forall j :: 0 <= j < i ==> !HasCurrency(accounts[j], Code(currency))
    ensures var account := AccountList(Next(queue).body)[i];
      var field := Field(account, "payazaAccountReference");
      var result := AccountReferenceRun(urls, env, currency, queue).result;
      (field.None? || field.value == JNull ==> result == Ok(None)) &&
      (field.Some? && field.value.JStr? ==> result == Ok(Some(field.value.s))) &&
      (field.Some? && !field.value.JStr? && field.value != JNull ==> result == Err(TypeError))
  {
    var accounts := AccountList(Next(queue).body);
    FirstWhereIsFirst(accounts, Code(currency), i);
    MatchedAccountIsTruthy(accounts[i], Code(currency));
  }

  // --------------------------------------------------------------- payloads

  datatype Beneficiary = Beneficiary(
    creditAmount: real,
    accountNumber: string,
    accountName: string,
    bankCode: string,
    narration: string,
    transactionReference: string)

  datatype ServicePayload = ServicePayload(
    payoutAmount: real,
    transactionPin: Json,
    accountReference: Option<string>,
    currency: string,
    beneficiaries: seq<Beneficiary>,
    country: Option<string>)

  /** The payload of a payout POST: `transaction_type` and `service_payload`. */
  datatype PayoutPayload = PayoutPayload(transactionType: string, service: ServicePayload)

  const SendNarration := "Payout via Payaza SDK"
  const MobileMoneyNarration := "Mobile Money Payout"
  const GhsNarration := "GHS Bank Transfer"

  /** The payload literal all three send operations write: one beneficiary credited with the payout amount. */
  function SinglePayout(
    transactionType: string, amount: real, pin: Json, reference: Option<string>, currency: string,
    accountNumber: string, accountName: string, bankCode: string, narration: string, transactionRef: string
  ): PayoutPayload {
    PayoutPayload(transactionType, ServicePayload(amount, pin, reference, currency,
      [Beneficiary(amount, accountNumber, accountName, bankCode, narration, transactionRef)], None))
  }

  /** What the three payloads have in common. */
  predicate SingleBeneficiary(p: PayoutPayload, amount: real, transactionRef: string) {
    |p.service.beneficiaries| == 1 &&
    p.service.payoutAmount == amount &&
    p.service.beneficiaries[0].creditAmount == amount &&
    p.service.beneficiaries[0].transactionReference == transactionRef
  }

  /** The payload of `send()`. */
  function SendPayload(b: PayoutBeneficiary, transactionRef: string, reference: Option<string>, pin: Json): (p: PayoutPayload)
    ensures SingleBeneficiary(p, b.amount, transactionRef)
    ensures p.transactionType == TransactionType(b.currency) && p.service.currency == Code(b.currency)
    ensures p.service.accountReference == reference && p.service.country == None
    ensures p.service.beneficiaries[0].narration == b.narration.GetOr(SendNarration)
    ensures p.service.beneficiaries[0].accountNumber == b.accountNumber
  {
    SinglePayout(TransactionType(b.currency), b.amount, pin, reference, Code(b.currency),
      b.accountNumber, b.accountName, b.bankCode, b.narration.GetOr(SendNarration), transactionRef)
  }

  /** `$currency === Currency::XOF && $country`. */
  predicate AddsCountry(currency: Currency, country: Option<string>) {
    currency == XOF && country.Some? && Truthy(JStr(country.value))
  }

  /** The payload of `sendMobileMoney()`, after the conditional `country` write. */
  function MobileMoneyPayload(
    currency: Currency, amount: real, phoneNumber: string, accountName: string, bankCode: string,
    transactionRef: string, narration: Option<string>, country: Option<string>, reference: Option<string>, pin: Json
  ): (p: PayoutPayload)
    ensures SingleBeneficiary(p, amount, transactionRef) && p.transactionType == "mobile_money"
    ensures p.service.country.Some? <==> AddsCountry(currency, country)
    ensures p.service.country.Some? ==> p.service.country == country
  {
    var p := SinglePayout("mobile_money", amount, pin, reference, Code(currency),
      phoneNumber, accountName, bankCode, narration.GetOr(MobileMoneyNarration), transactionRef);
    if AddsCountry(currency, country) then p.(service := p.service.(country := country)) else p
  }

  /** The payload of `sendGHSBankTransfer()`. */
  function GhsPayload(
    amount: real, accountNumber: string, accountName: string, bankCode: string,
    transactionRef: string, narration: Option<string>, reference: Option<string>, pin: Json
  ): (p: PayoutPayload)
    ensures SingleBeneficiary(p, amount, transactionRef)
    ensures p.transactionType == "ghipps" && p.service.currency == "GHS" && p.service.country == None
    ensures p.service.beneficiaries[0].narration == narration.GetOr(GhsNarration)
  {
    SinglePayout("ghipps", amount, pin, reference, "GHS",
      accountNumber, accountName, bankCode, narration.GetOr(GhsNarration), transactionRef)
  }

  /** The mobile-money payload: the fixed type, one beneficiary, and `country` exactly when XOF meets a truthy country. */
  lemma MobileMoneyPayloadShape(
    currency: Currency, amount: real, phoneNumber: string, accountName: string, bankCode: string,
    transactionRef: string, narration: Option<string>, country: Option<string>, reference: Option<string>, pin: Json)
    ensures var p := MobileMoneyPayload(currency, amount, phoneNumber, accountName, bankCode,
        transactionRef, narration, country, reference, pin);
      SingleBeneficiary(p, amount, transactionRef) &&
      p.transactionType == "mobile_money" && p.service.currency == Code(currency) &&
      p.service.beneficiaries[0].accountNumber == phoneNumber &&
      p.service.beneficiaries[0].narration == narration.GetOr(MobileMoneyNarration) &&
      (p.service.country.Some? <==> AddsCountry(currency, country)) &&
      (p.service.country.Some? ==> p.service.country == country)
  {
  }

  /** The `country` write changes nothing but `country`: without it the payload is the plain literal. */
  lemma MobileMoneyCountryOnlyChange(
    currency: Currency, amount: real, phoneNumber: string, accountName: string, bankCode: string,
    transactionRef: string, narration: Option<string>, country: Option<string>, reference: Option<string>, pin: Json)
    ensures var base := SinglePayout("mobile_money", amount, pin, reference, Code(currency),
        phoneNumber, accountName, bankCode, narration.GetOr(MobileMoneyNarration), transactionRef);
      MobileMoneyPayload(currency, amount, phoneNumber, accountName, bankCode,
        transactionRef, narration, country, reference, pin).(service := base.service.(country := None)) == base
  {
  }

  const SenderJson := JObj(map[
    "sender_name" := JStr("Payaza SDK User"),
    "sender_id" := JStr(""),
    "sender_phone_number" := JStr("01234595"),
    "sender_address" := JStr("123, SDK Street")])

  function BeneficiaryJson(b: Beneficiary): Json {
    JObj(map[
      "credit_amount" := JFloat(b.creditAmount),
      "account_number" := JStr(b.accountNumber),
      "account_name" := JStr(b.accountName),
      "bank_code" := JStr(b.bankCode),
      "narration" := JStr(b.narration),
      "transaction_reference" := JStr(b.transactionReference),
      "sender" := SenderJson])
  }

  function NullableJson(s: Option<string>): Json {
    match s
    case None => JNull
    case Some(v) => JStr(v)
  }

  function ServiceJson(s: ServicePayload): (j: Json)
    ensures j.JObj? && ("country" in j.fields <==> s.country.Some?)
    ensures j.JObj? && "payout_beneficiaries" in j.fields && j.fields["payout_beneficiaries"].JArr?
    ensures |j.fields["payout_beneficiaries"].items| == |s.beneficiaries|
  {
    var fields := map[
      "payout_amount" := JFloat(s.payoutAmount),
      "transaction_pin" := s.transactionPin,
      "account_reference" := NullableJson(s.accountReference),
      "currency" := JStr(s.currency),
      "payout_beneficiaries" := JArr(seq(|s.beneficiaries|, i requires 0 <= i < |s.beneficiaries| => BeneficiaryJson(s.beneficiaries[i])))];
    JObj(if s.country.Some? then fields["country" := JStr(s.country.value)] else fields)
  }

  /** The array the payout POST sends. */
  function PayloadJson(p: PayoutPayload): Json {
    JObj(map["transaction_type" := JStr(p.transactionType), "service_payload" := ServiceJson(p.service)])
  }

  // -------------------------------------------------------------- responses

  /** `$response->successful() && isset($json['response_code']) && $json['response_code'] == 200`. */
  predicate PayoutAccepted(response: Response)
    ensures PayoutAccepted(response) ==>
      response.Successful() && Isset(response.body, "response_code") && Truthy(response.body.fields["response_code"])
    ensures response.Successful() && Field(response.body, "response_code") == Some(JInt(200)) ==> PayoutAccepted(response)
    ensures Field(response.body, "response_code").Some? && response.body.fields["response_code"].JInt? ==>
      (PayoutAccepted(response) <==> response.Successful() && response.body.fields["response_code"].i == 200)
  {
    response.Successful() && Isset(response.body, "response_code") &&
    LooselyEquals200(response.body.fields["response_code"])
  }

  /** `$response->json('response_message', $response->json('message', $fallback))`. */
  function PayoutMessage(body: Json, fallback: string): (m: Json)
    ensures Field(body, "response_message").Some? ==> m == body.fields["response_message"]
    ensures Field(body, "response_message").None? && Field(body, "message").Some? ==> m == body.fields["message"]
    ensures Field(body, "response_message").None? && Field(body, "message").None? ==> m == JStr(fallback)
  {
    DataGet(body, ["response_message"], DataGet(body, ["message"], JStr(fallback)))
  }

  /** The state of a send: `transaction_status ?? response_status ?? 'PENDING'` of the response content. */
  function PayoutState(content: Json): (r: Result<TransactionState>)
    ensures r.Err? ==> r == Err(TypeError)
    ensures Isset(content, "transaction_status") && content.fields["transaction_status"].JStr? ==>
      r == Ok(MapStatus(Some(content.fields["transaction_status"].s)))
    ensures Isset(content, "transaction_status") && !content.fields["transaction_status"].JStr? ==> r == Err(TypeError)
    ensures !Isset(content, "transaction_status") && Isset(content, "response_status") ==>
      (content.fields["response_status"].JStr? ==> r == Ok(MapStatus(Some(content.fields["response_status"].s)))) &&
      (!content.fields["response_status"].JStr? ==> r == Err(TypeError))
    ensures !Isset(content, "transaction_status") && !Isset(content, "response_status") ==> r == Ok(PENDING)
  {
    match AsNullableString(Coalesce(content, "transaction_status", Coalesce(content, "response_status", JStr("PENDING"))))
    case Ok(s) => Ok(MapStatus(s))
    case Err(e) => Err(e)
  }

  /** What a send makes of the POST's answer. */
  function PayoutOutcome(response: Response, transactionRef: string, fallback: string): (r: Result<TransactionStatus>)
    ensures !PayoutAccepted(response) ==> r.Err?
    ensures r.Ok? ==> r.value.transactionId == transactionRef && r.value.raw == response.body
  {
    if !PayoutAccepted(response) then Err(Failure(PayoutMessage(response.body, fallback), response.status))
    else
      var content := DataGet(response.body, ["response_content"], JArr([]));
      NewTransactionStatus(transactionRef, PayoutState(content), response.body)
  }

  /** Resolve `payout_send` and POST the payload; a registry failure is thrown before any request. */
  function DispatchRun(urls: map<string, Json>, env: Environment, queue: seq<Response>,
                       payload: Json, transactionRef: string, fallback: string): (x: Exchange<TransactionStatus>)
    ensures ResolveUrl(urls, "payout_send", env).Err? ==> x == Exchange(Err(ResolveUrl(urls, "payout_send", env).error), [], queue)
    ensures x.result.Ok? ==>
      x.requests == [Request(POST, ResolveUrl(urls, "payout_send", env).value, Some(payload))] &&
      x.result.value.transactionId == transactionRef
  {
    match ResolveUrl(urls, "payout_send", env)
    case Err(e) => Exchange(Err(e), [], queue)
    case Ok(url) => Exchange(PayoutOutcome(Next(queue), transactionRef, fallback), [Request(POST, url, Some(payload))], Rest(queue))
  }

  /** `config('payaza.urls')` and `config('payaza.transaction_pin')`. */
  datatype Config = Config(urls: map<string, Json>, transactionPin: Json)

  /** The lookup, then, if it produced a reference, the POST of the payload built from it. */
  function SendAfterLookup(cfg: Config, env: Environment, lookup: Exchange<Option<string>>,
                           payload: Option<string> -> PayoutPayload, transactionRef: string, fallback: string)
    : (x: Exchange<TransactionStatus>)
    ensures lookup.result.Err? ==> x == Exchange(Err(lookup.result.error), lookup.requests, lookup.remaining)
    ensures x.result.Ok? ==>
      lookup.result.Ok? && x.result.value.transactionId == transactionRef &&
      |x.requests| == |lookup.requests| + 1 && x.requests[..|lookup.requests|] == lookup.requests &&
      x.requests[|lookup.requests|].verb == POST
  {
    match lookup.result
    case Err(e) => Exchange(Err(e), lookup.requests, lookup.remaining)
    case Ok(reference) =>
      var post := DispatchRun(cfg.urls, env, lookup.remaining, PayloadJson(payload(reference)), transactionRef, fallback);
      Exchange(post.result, lookup.requests + post.requests, post.remaining)
  }

  const SendFallback := "Payout failed"
  const MobileMoneyFallback := "Mobile money payout failed"
  const GhsFallback := "GHS bank transfer failed"

  /** `send($beneficiary, $transactionRef)`. */
  function SendRun(cfg: Config, env: Environment, b: PayoutBeneficiary, transactionRef: string, queue: seq<Response>)
    : (x: Exchange<TransactionStatus>)
    ensures x.result.Ok? ==>
      x.result.value.transactionId == transactionRef &&
      |x.requests| == 2 && x.requests[0].verb == GET && x.requests[1].verb == POST
    ensures x.requests != [] ==> x.requests[0].verb == GET
  {
    SendAfterLookup(cfg, env, AccountReferenceRun(cfg.urls, env, b.currency, queue),
      reference => SendPayload(b, transactionRef, reference, cfg.transactionPin), transactionRef, SendFallback)
  }

  /** `sendMobileMoney(...)`. */
  function MobileMoneyRun(cfg: Config, env: Environment, currency: Currency, amount: real, phoneNumber: string,
                          accountName: string, bankCode: string, transactionRef: string,
                          narration: Option<string>, country: Option<string>, queue: seq<Response>)
    : (x: Exchange<TransactionStatus>)
    ensures x.result.Ok? ==>
      x.result.value.transactionId == transactionRef &&
      |x.requests| == 2 && x.requests[0].verb == GET && x.requests[1].verb == POST
    ensures x.requests != [] ==> x.requests[0].verb == GET
  {
    SendAfterLookup(cfg, env, AccountReferenceRun(cfg.urls, env, currency, queue),
      reference => MobileMoneyPayload(currency, amount, phoneNumber, accountName, bankCode,
        transactionRef, narration, country, reference, cfg.transactionPin),
      transactionRef, MobileMoneyFallback)
  }

  /** After a successful lookup, a mobile-money send is the lookup's requests followed by the POST of its payload; `PayoutsClient.SendMobileMoney` takes this step. */
  lemma MobileMoneyRunDispatches(cfg: Config, env: Environment, currency: Currency, amount: real, phoneNumber: string,
                                 accountName: string, bankCode: string, transactionRef: string,
                                 narration: Option<string>, country: Option<string>, queue: seq<Response>)
    requires AccountReferenceRun(cfg.urls, env, currency, queue).result.Ok?
    ensures var lookup := AccountReferenceRun(cfg.urls, env, currency, queue);
      var d := DispatchRun(cfg.urls, env, lookup.remaining,
        PayloadJson(MobileMoneyPayload(currency, amount, phoneNumber, accountName, bankCode,
          transactionRef, narration, country, lookup.result.value, cfg.transactionPin)), transactionRef, MobileMoneyFallback);
      MobileMoneyRun(cfg, env, currency, amount, phoneNumber, accountName, bankCode, transactionRef, narration, country, queue)
        == Exchange(d.result, lookup.requests + d.requests, d.remaining)
  {
  }

  /** `sendGHSBankTransfer(...)`. */
  function GhsRun(cfg: Config, env: Environment, amount: real, accountNumber: string, accountName: string,
                  bankCode: string, transactionRef: string, narration: Option<string>, queue: seq<Response>)
    : (x: Exchange<TransactionStatus>)
    ensures x.result.Ok? ==>
      x.result.value.transactionId == transactionRef &&
      |x.requests| == 2 && x.requests[0].verb == GET && x.requests[1].verb == POST
    ensures x.requests != [] ==> x.requests[0].verb == GET
  {
    SendAfterLookup(cfg, env, AccountReferenceRun(cfg.urls, env, GHS, queue),
      reference => GhsPayload(amount, accountNumber, accountName, bankCode, transactionRef, narration, reference, cfg.transactionPin),
      transactionRef, GhsFallback)
  }

  /** `status()` accepts a 2xx response whose `status` is set and truthy. */
  predicate StatusAccepted(response: Response)
    ensures StatusAccepted(response) <==>
      response.Successful() && Field(response.body, "status").Some? && Truthy(response.body.fields["status"])
  {
    response.Successful() && Isset(response.body, "status") && Truthy(response.body.fields["status"])
  }

  const StatusFallback := "Failed to get transaction status"

  /** What `status()` makes of the GET's answer. */
  function StatusOutcome(response: Response, transactionRef: string): (r: Result<TransactionStatus>)
    ensures !StatusAccepted(response) ==> r.Err?
    ensures r.Ok? ==> r.value.transactionId == transactionRef && r.value.raw == response.body
  {
    if !StatusAccepted(response) then
      Err(Failure(DataGet(response.body, ["message"], JStr(StatusFallback)), response.status))
    else
      var data := DataGet(response.body, ["data"], JArr([]));
      var state := match AsNullableString(Coalesce(data, "transactionStatus", JStr("PENDING")))
        case Ok(s) => Ok(MapPayoutStatus(s))
        case Err(e) => Err(e);
      NewTransactionStatus(transactionRef, state, response.body)
  }

  /** `status($transactionRef)`: GET `<payout_status>/<ref>`. */
  function StatusRun(cfg: Config, env: Environment, transactionRef: string, queue: seq<Response>): (x: Exchange<TransactionStatus>)
    ensures |x.requests| <= 1 && NoPost(x.requests)
    ensures x.result.Ok? ==>
      ResolveUrl(cfg.urls, "payout_status", env).Ok? &&
      x.requests == [Request(GET, ResolveUrl(cfg.urls, "payout_status", env).value + "/" + transactionRef, None)] &&
      x.result.value.transactionId == transactionRef
  {
    match ResolveUrl(cfg.urls, "payout_status", env)
    case Err(e) => Exchange(Err(e), [], queue)
    case Ok(base) =>
      Exchange(StatusOutcome(Next(queue), transactionRef), [Request(GET, base + "/" + transactionRef, None)], Rest(queue))
  }

  const BanksFailure := "Unable to fetch banks"

  /** What `getBanks()` makes of the GET's answer: `data` (default `[]`), which must be an array. */
  function BanksOutcome(response: Response): (r: Result<Json>)
    ensures !response.Successful() ==> r == Err(Api(PayazaException(BanksFailure, response.status, None)))
    ensures response.Successful() ==>
      (r.Ok? <==> IsArray(DataGet(response.body, ["data"], JArr([])))) && (r.Err? ==> r.error == TypeError)
    ensures r.Ok? ==> r.value == DataGet(response.body, ["data"], JArr([]))
  {
    if !response.Successful() then Err(Api(Raise(BanksFailure, response.status)))
    else AsArray(DataGet(response.body, ["data"], JArr([])))
  }

  /** `getBanks($countryCode)`: GET `<baseUrl>/payout/banks/<code>`. */
  function BanksRun(env: Environment, countryCode: string, queue: seq<Response>): (x: Exchange<Json>)
    ensures |x.requests| == 1 && NoPost(x.requests) && x.remaining == Rest(queue)
    ensures x.result.Ok? ==> Next(queue).Successful() && IsArray(x.result.value)
  {
    Exchange(BanksOutcome(Next(queue)), [Request(GET, BaseUrl(env) + "/payout/banks/" + countryCode, None)], Rest(queue))
  }

  // -------------------------------------------------------------- properties

  /** The generic table ignores case. */
  lemma MapStatusIgnoresCase(s: string)
    ensures MapStatus(Some(s)) == MapStatus(Some(Lower(s)))
  {
    LowerIdempotent(s);
  }

  /** Upper- and mixed-case spellings the API sends. */
  lemma MapStatusExamples()
    ensures MapStatus(None) == PENDING
    ensures MapStatus(Some("SUCCESSFUL")) == SUCCESSFUL
    ensures MapStatus(Some("Completed")) == SUCCESSFUL
    ensures MapStatus(Some("TRANSACTION_INITIATED")) == PROCESSING
    ensures MapStatus(Some("FAILED")) == FAILED
  {
    assert Lower("pending") == "pending";
    assert Lower("SUCCESSFUL") == "successful";
    assert Lower("Completed") == "completed";
    assert Lower("TRANSACTION_INITIATED") == "transaction_initiated";
    assert Lower("FAILED") == "failed";
  }

  /** FAILED only for "failed" in any case; null and every unknown string are PENDING, never FAILED. */
  lemma MapStatusFailedOnlyWhenSaid(status: Option<string>)
    ensures MapStatus(status) == FAILED <==> status.Some? && Lower(status.value) == "failed"
    ensures MapStatus(status) == SUCCESSFUL <==> status.Some? && Lower(status.value) in {"completed", "successful"}
    ensures MapStatus(status) == PROCESSING <==>
      status.Some? && Lower(status.value) in {"processing", "initialized", "transaction_initiated"}
  {
    if status.None? {
      assert Lower("pending") == "pending";
    }
  }

  /** The NIP table is exact: each of its four codes, in upper case, gives its state; everything else is PENDING. */
  lemma MapPayoutStatusExact(status: Option<string>)
    ensures MapPayoutStatus(status) != PENDING <==>
      status.Some? && status.value in {"NIP_SUCCESS", "NIP_PENDING", "TRANSACTION_INITIATED", "NIP_FAILURE"}
    ensures MapPayoutStatus(status) == SUCCESSFUL <==> status == Some("NIP_SUCCESS")
    ensures MapPayoutStatus(status) == PROCESSING <==> status == Some("NIP_PENDING") || status == Some("TRANSACTION_INITIATED")
    ensures MapPayoutStatus(status) == FAILED <==> status == Some("NIP_FAILURE")
    ensures MapPayoutStatus(Some("nip_success")) == PENDING && MapPayoutStatus(None) == PENDING
  {
  }

  /** The NIP table is case-sensitive: a lower-cased code is never recognised. */
  lemma MapPayoutStatusCaseSensitive(s: string)
    ensures MapPayoutStatus(Some(Lower(s))) == PENDING
  {
    if s != [] {
      assert Lower(s)[0] == LowerChar(s[0]);
    }
  }

  /** A send fails with a PayazaException exactly when the answer is not accepted and carries a string message; its code is the HTTP status. */
  lemma PayoutFailure(response: Response, transactionRef: string, fallback: string)
    ensures var r := PayoutOutcome(response, transactionRef, fallback);
      var m := PayoutMessage(response.body, fallback);
      (r.Err? && r.error.Api? <==> !PayoutAccepted(response) && m.JStr?) &&
      (!PayoutAccepted(response) ==> r == Err(Failure(m, response.status))) &&
      (r.Err? && r.error.Api? ==> r.error.exception == PayazaException(m.s, response.status, None))
  {
  }

  /** The failure message is `response_message`, else `message`, else the operation's fallback. */
  lemma PayoutMessageOrder(body: Json, fallback: string)
    ensures Field(body, "response_message").Some? ==> PayoutMessage(body, fallback) == body.fields["response_message"]
    ensures Field(body, "response_message").None? && Field(body, "message").Some? ==>
      PayoutMessage(body, fallback) == body.fields["message"]
    ensures Field(body, "response_message").None? && Field(body, "message").None? ==>
      PayoutMessage(body, fallback) == JStr(fallback)
  {
  }

  /** An accepted answer yields the caller's reference, the whole body, and the generic table's state; only a TypeError can intervene. */
  lemma PayoutSuccess(response: Response, transactionRef: string, fallback: string)
    requires PayoutAccepted(response)
    ensures var r := PayoutOutcome(response, transactionRef, fallback);
      var content := DataGet(response.body, ["response_content"], JArr([]));
      (r.Err? ==> r.error == TypeError) &&
      (r.Ok? <==> PayoutState(content).Ok?) &&
      (r.Ok? ==> r.value == TransactionStatus(transactionRef, PayoutState(content).value, response.body))
  {
  }

  /** The state reads `transaction_status`, then `response_status`, then defaults to PENDING. */
  lemma PayoutStateOrder(content: Json)
    ensures Isset(content, "transaction_status") && content.fields["transaction_status"].JStr? ==>
      PayoutState(content) == Ok(MapStatus(Some(content.fields["transaction_status"].s)))
    ensures (!Isset(content, "transaction_status") && Isset(content, "response_status") &&
             content.fields["response_status"].JStr?) ==>
      PayoutState(content) == Ok(MapStatus(Some(content.fields["response_status"].s)))
    ensures !Isset(content, "transaction_status") && !Isset(content, "response_status") ==>
      PayoutState(content) == Ok(PENDING)
  {
    if !Isset(content, "transaction_status") && !Isset(content, "response_status") {
      assert Lower("PENDING") == "pending";
    }
  }

  /** An accepted payout whose content says TRANSACTION_INITIATED is PROCESSING. */
  lemma TransactionInitiatedIsProcessing(status: int, ref: string)
    requires 200 <= status < 300
    ensures PayoutOutcome(
        Response(status, JObj(map[
          "response_code" := JInt(200),
          "response_content" := JObj(map["transaction_status" := JStr("TRANSACTION_INITIATED")])])),
        ref, SendFallback)
      == Ok(TransactionStatus(ref, PROCESSING, JObj(map[
          "response_code" := JInt(200),
          "response_content" := JObj(map["transaction_status" := JStr("TRANSACTION_INITIATED")])])))
  {
    assert Lower("TRANSACTION_INITIATED") == "transaction_initiated";
  }

  /** When the lookup fails the send stops there: no POST is issued and the lookup's error is the result. */
  lemma LookupFailureStopsSend(cfg: Config, env: Environment, lookup: Exchange<Option<string>>,
                               payload: Option<string> -> PayoutPayload, transactionRef: string, fallback: string)
    requires lookup.result.Err? && NoPost(lookup.requests)
    ensures var x := SendAfterLookup(cfg, env, lookup, payload, transactionRef, fallback);
      x.result == Err(lookup.result.error) && x.requests == lookup.requests && NoPost(x.requests)
  {
  }

  /** A lookup that succeeds is followed by exactly one POST to `payout_send`, answered by the next response, or by nothing if that URL fails. */
  lemma SendAfterSuccessfulLookup(cfg: Config, env: Environment, lookup: Exchange<Option<string>>,
                                  payload: Option<string> -> PayoutPayload, transactionRef: string, fallback: string)
    requires lookup.result.Ok?
    ensures var x := SendAfterLookup(cfg, env, lookup, payload, transactionRef, fallback);
      var url := ResolveUrl(cfg.urls, "payout_send", env);
      (url.Err? ==> x == Exchange(Err(url.error), lookup.requests, lookup.remaining)) &&
      (url.Ok? ==>
        x.requests == lookup.requests + [Request(POST, url.value, Some(PayloadJson(payload(lookup.result.value))))] &&
        x.result == PayoutOutcome(Next(lookup.remaining), transactionRef, fallback) &&
        x.remaining == Rest(lookup.remaining))
  {
  }

  /** Every successful send reports the caller's reference as the transaction id. */
  lemma SendEchoesReference(cfg: Config, env: Environment, lookup: Exchange<Option<string>>,
                            payload: Option<string> -> PayoutPayload, transactionRef: string, fallback: string)
    ensures var x := SendAfterLookup(cfg, env, lookup, payload, transactionRef, fallback);
      x.result.Ok? ==> x.result.value.transactionId == transactionRef
  {
    if lookup.result.Ok? {
      var url := ResolveUrl(cfg.urls, "payout_send", env);
      if url.Ok? {
        var resp := Next(lookup.remaining);
        if PayoutAccepted(resp) {
          PayoutSuccess(resp, transactionRef, fallback);
        }
      }
    }
  }

  /** `send()`: lookup GET first, then the POST of its payload; an unsuccessful lookup issues no POST. */
  lemma SendRequests(cfg: Config, env: Environment, b: PayoutBeneficiary, transactionRef: string, queue: seq<Response>)
    ensures var lookup := AccountReferenceRun(cfg.urls, env, b.currency, queue);
      var x := SendRun(cfg, env, b, transactionRef, queue);
      (lookup.result.Err? ==> x.result == Err(lookup.result.error) && NoPost(x.requests)) &&
      (x.result.Ok? ==> x.result.value.transactionId == transactionRef) &&
      (lookup.result.Ok? && ResolveUrl(cfg.urls, "payout_send", env).Ok? ==>
        |x.requests| == |lookup.requests| + 1 &&
        x.requests[|lookup.requests|] == Request(POST, ResolveUrl(cfg.urls, "payout_send", env).value,
          Some(PayloadJson(SendPayload(b, transactionRef, lookup.result.value, cfg.transactionPin)))))
  {
    var lookup := AccountReferenceRun(cfg.urls, env, b.currency, queue);
    var payload := reference => SendPayload(b, transactionRef, reference, cfg.transactionPin);
    LookupShape(cfg.urls, env, b.currency, queue);
    if lookup.result.Err? {
      LookupFailureStopsSend(cfg, env, lookup, payload, transactionRef, SendFallback);
    } else {
      SendAfterSuccessfulLookup(cfg, env, lookup, payload, transactionRef, SendFallback);
    }
    SendEchoesReference(cfg, env, lookup, payload, transactionRef, SendFallback);
  }

  /**
   * `status()` fails on every answer it does not accept: with a PayazaException exactly when
   * its message is a string, with a TypeError otherwise.
   */
  lemma StatusFailure(response: Response, transactionRef: string)
    ensures var r := StatusOutcome(response, transactionRef);
      var m := DataGet(response.body, ["message"], JStr(StatusFallback));
      (r.Err? && r.error.Api? <==> !StatusAccepted(response) && m.JStr?) &&
      (!StatusAccepted(response) ==> r == Err(Failure(m, response.status))) &&
      (r.Err? && r.error.Api? ==> r.error.exception == PayazaException(m.s, response.status, None)) &&
      (r.Ok? ==> r.value.transactionId == transactionRef && r.value.raw == response.body)
  {
  }

  /** `status()` reads `data.transactionStatus` through the NIP table, PENDING when absent. */
  lemma StatusState(response: Response, transactionRef: string)
    requires StatusAccepted(response)
    ensures var data := DataGet(response.body, ["data"], JArr([]));
      var r := StatusOutcome(response, transactionRef);
      (Isset(data, "transactionStatus") && data.fields["transactionStatus"].JStr? ==>
        r == Ok(TransactionStatus(transactionRef, MapPayoutStatus(Some(data.fields["transactionStatus"].s)), response.body))) &&
      (Isset(data, "transactionStatus") && !data.fields["transactionStatus"].JStr? ==> r == Err(TypeError)) &&
      (!Isset(data, "transactionStatus") ==> r == Ok(TransactionStatus(transactionRef, PENDING, response.body)))
  {
  }

  /** The status round trip for a settled NIP transfer. */
  lemma NipSuccessScenario(cfg: Config, env: Environment, ref: string, base: string, rest: seq<Response>)
    requires ResolveUrl(cfg.urls, "payout_status", env) == Ok(base)
    ensures var body := JObj(map["status" := JBool(true), "data" := JObj(map["transactionStatus" := JStr("NIP_SUCCESS")])]);
      StatusRun(cfg, env, ref, [Response(200, body)] + rest)
        == Exchange(Ok(TransactionStatus(ref, SUCCESSFUL, body)), [Request(GET, base + "/" + ref, None)], rest)
  {
    var body := JObj(map["status" := JBool(true), "data" := JObj(map["transactionStatus" := JStr("NIP_SUCCESS")])]);
    assert Rest([Response(200, body)] + rest) == rest;
  }

  /** `getBanks()`: the fixed message on a non-2xx answer, else `data` verbatim when it is an array. */
  lemma BanksContract(env: Environment, countryCode: string, queue: seq<Response>)
    ensures var x := BanksRun(env, countryCode, queue);
      var response := Next(queue);
      var data := DataGet(response.body, ["data"], JArr([]));
      x.requests == [Request(GET, BaseUrl(env) + "/payout/banks/" + countryCode, None)] &&
      (!response.Successful() ==> x.result == Err(Api(PayazaException(BanksFailure, response.status, None)))) &&
      (response.Successful() && IsArray(data) ==> x.result == Ok(data)) &&
      (response.Successful() && !IsArray(data) ==> x.result == Err(TypeError))
  {
  }

  // ------------------------------------------------------------------ class

  /** The client object: the shared HTTP transport, the environment, and the configuration it reads. */
  class PayoutsClient {
    const http: Http
    const env: Environment
    const config: Config

    constructor (http: Http, env: Environment, config: Config)
      ensures this.http == http && this.env == env && this.config == config
    {
      this.http := http;
      this.env := env;
      this.config := config;
    }

    /** `getAccountReference($currency)`. */
    method GetAccountReference(currency: Currency) returns (r: Result<Option<string>>)
      modifies http
      ensures var x := AccountReferenceRun(config.urls, env, currency, old(http.queue));
        r == x.result && http.trace == old(http.trace) + x.requests && http.queue == x.remaining
    {
      var url := ResolveUrl(config.urls, "account_info", env);
      if url.Err? {
        return CatchLookupError(Err(url.error));
      }
      var response := http.Get(url.value);
      r := CatchLookupError(LookupReference(response, currency));
    }

    /** The POST to `payout_send` and the reading of its answer. */
    method Dispatch(payload: Json, transactionRef: string, fallback: string) returns (r: Result<TransactionStatus>)
      modifies http
      ensures var x := DispatchRun(config.urls, env, old(http.queue), payload, transactionRef, fallback);
        r == x.result && http.trace == old(http.trace) + x.requests && http.queue == x.remaining
    {
      var url := ResolveUrl(config.urls, "payout_send", env);
      if url.Err? {
        return Err(url.error);
      }
      var response := http.Post(url.value, payload);
      r := PayoutOutcome(response, transactionRef, fallback);
    }

    /** `send($beneficiary, $transactionRef)`. */
    method Send(beneficiary: PayoutBeneficiary, transactionRef: string) returns (r: Result<TransactionStatus>)
      modifies http
      ensures var x := SendRun(config, env, beneficiary, transactionRef, old(http.queue));
        r == x.result && http.trace == old(http.trace) + x.requests && http.queue == x.remaining
    {
      var transactionType := TransactionType(beneficiary.currency);
      var reference := GetAccountReference(beneficiary.currency);
      if reference.Err? {
        return Err(reference.error);
      }
      var payload := SinglePayout(transactionType, beneficiary.amount, config.transactionPin, reference.value,
        Code(beneficiary.currency), beneficiary.accountNumber, beneficiary.accountName, beneficiary.bankCode,
        beneficiary.narration.GetOr(SendNarration), transactionRef);
      ghost var lookup := AccountReferenceRun(config.urls, env, beneficiary.currency, old(http.queue));
      r := Dispatch(PayloadJson(payload), transactionRef, SendFallback);
      TraceAppend(old(http.trace), lookup.requests,
        DispatchRun(config.urls, env, lookup.remaining, PayloadJson(payload), transactionRef, SendFallback).requests);
    }

    /** `sendMobileMoney(...)`. */
    method SendMobileMoney(currency: Currency, amount: real, phoneNumber: string, accountName: string,
                           bankCode: string, transactionRef: string,
                           narration: Option<string> := None, country: Option<string> := None)
      returns (r: Result<TransactionStatus>)
      modifies http
      ensures var x := MobileMoneyRun(config, env, currency, amount, phoneNumber, accountName, bankCode,
          transactionRef, narration, country, old(http.queue));
        r == x.result && http.trace == old(http.trace) + x.requests && http.queue == x.remaining
    {
      var reference := GetAccountReference(currency);
      if reference.Err? {
        return Err(reference.error);
      }
      var payload := SinglePayout("mobile_money", amount, config.transactionPin, reference.value, Code(currency),
        phoneNumber, accountName, bankCode, narration.GetOr(MobileMoneyNarration), transactionRef);
      if currency == XOF && country.Some? && Truthy(JStr(country.value)) {
        payload := payload.(service := payload.service.(country := country));
      }
      assert payload == MobileMoneyPayload(currency, amount, phoneNumber, accountName, bankCode,
        transactionRef, narration, country, reference.value, config.transactionPin);
      ghost var lookup := AccountReferenceRun(config.urls, env, currency, old(http.queue));
      MobileMoneyRunDispatches(config, env, currency, amount, phoneNumber, accountName, bankCode, transactionRef,
        narration, country, old(http.queue));
      r := Dispatch(PayloadJson(payload), transactionRef, MobileMoneyFallback);
      TraceAppend(old(http.trace), lookup.requests,
        DispatchRun(config.urls, env, lookup.remaining, PayloadJson(payload), transactionRef, MobileMoneyFallback).requests);
    }

    /** `sendGHSBankTransfer(...)`. */
    method SendGhsBankTransfer(amount: real, accountNumber: string, accountName: string, bankCode: string,
                               transactionRef: string, narration: Option<string> := None)
      returns (r: Result<TransactionStatus>)
      modifies http
      ensures var x := GhsRun(config, env, amount, accountNumber, accountName, bankCode, transactionRef,
          narration, old(http.queue));
        r == x.result && http.trace == old(http.trace) + x.requests && http.queue == x.remaining
    {
      var reference := GetAccountReference(GHS);
      if reference.Err? {
        return Err(reference.error);
      }
      var payload := SinglePayout("ghipps", amount, config.transactionPin, reference.value, "GHS",
        accountNumber, accountName, bankCode, narration.GetOr(GhsNarration), transactionRef);
      ghost var lookup := AccountReferenceRun(config.urls, env, GHS, old(http.queue));
      r := Dispatch(PayloadJson(payload), transactionRef, GhsFallback);
      TraceAppend(old(http.trace), lookup.requests,
        DispatchRun(config.urls, env, lookup.remaining, PayloadJson(payload), transactionRef, GhsFallback).requests);
    }

    /** `status($transactionRef)`. */
    method Status(transactionRef: string) returns (r: Result<TransactionStatus>)
      modifies http
      ensures var x := StatusRun(config, env, transactionRef, old(http.queue));
        r == x.result && http.trace == old(http.trace) + x.requests && http.queue == x.remaining
    {
      var base := ResolveUrl(config.urls, "payout_status", env);
      if base.Err? {
        return Err(base.error);
      }
      var response := http.Get(base.value + "/" + transactionRef);
      r := StatusOutcome(response, transactionRef);
    }

    /** `getBanks($countryCode)`. */
    method GetBanks(countryCode: string) returns (r: Result<Json>)
      modifies http
      ensures var x := BanksRun(env, countryCode, old(http.queue));
        r == x.result && http.trace == old(http.trace) + x.requests && http.queue == x.remaining
    {
      var response := http.Get(BaseUrl(env) + "/payout/banks/" + countryCode);
      r := BanksOutcome(response);
    }
  }
}
