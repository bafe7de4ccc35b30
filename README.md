# Payaza Laravel SDK — a Dafny model

This project models the request-building and response-normalisation core of the Payaza
Laravel SDK (`gbxnga/payaza-laravel-sdk`), a PHP client for the Payaza payments API. It covers:

- **Payouts.** The payout status tables, the currency to transaction-type table, the
  settlement-reference lookup (`getAccountReference`), the single-beneficiary payout
  payloads, and the operations `send`, `sendMobileMoney`, `sendGHSBankTransfer`, `status` and `getBanks`.
- **Cards.** The card client: `charge` (payload, first/last-name split, 2DS/3DS endpoint
  choice), `status`, `refund` and `refundStatus`, and its own status table.
- **URL resolution.** The `ResolvesUrls` trait: registry lookup and `{tenant}` substitution.
- **Client binding.** The `PayazaClient` binding of the service provider: default account, key check and environment.
- **Exceptions.** `PayazaException` message composition.

HTTP is a queue of canned responses plus a trace of the requests issued (`Transport.Http`).
The specification of each operation is a pure `...Run` function. Given the configuration,
the arguments and the queue, it returns an `Exchange`: the outcome, the requests issued in
order, and the responses left. The methods of the classes `Payouts.PayoutsClient` and
`Cards.CardsClient` do the work step by step, as the PHP does, including the in-place
payload writes. Each method is proved to return that outcome and leave that trace and
queue. The properties are lemmas about the `...Run` functions and the pure helpers.

A few pieces of PHP meaning are written out explicitly:

- **Truthiness.** `null`, `false`, `0`, `0.0`, `""`, `"0"` and the empty array are falsy.
- **`isset`/`??`.** A present `null` counts as absent.
- **`data_get`.** A present `null` is returned as `null`, not as the default.
- **Loose `==`.** PHP 8 loose `==` is modelled against a currency code and against `200`.
- **Strict types.** Under `declare(strict_types=1)`, a decoded value of the wrong type passed
  to a typed parameter is a `TypeError` (`Exceptions.Error.TypeError`). A `TypeError` is
  not an `\Exception`, so the `catch` in `getAccountReference` does not catch it.

Modules, one per file:

| module | contents |
|---|---|
| `Wrappers` | `Option` |
| `Json` | decoded JSON and the PHP semantics above |
| `Enums` | `Currency`, `Environment`, `TransactionState` |
| `Strings` | ASCII lower-casing, `str_replace`, `explode` with limit 2, `implode` |
| `Exceptions` | `PayazaException`, `Error`, `Result` |
| `StrictTypes` | typed-parameter coercions |
| `Data` | `TransactionStatus`, `Card`, `PayoutBeneficiary` |
| `Transport` | requests, responses, the `Http` queue |
| `ResolvesUrls` | the `ResolvesUrls` trait |
| `Payouts` | the payouts client |
| `Cards` | the cards client |
| `ServiceProvider` | the client binding |

## Model

| member | source | states |
|---|---|---|
| Exceptions.NewPayazaException | src/Exceptions/PayazaException.php:11-24 | code and `responseData` are kept verbatim; the given message is a prefix of the stored one; the stored message equals the given one iff there is no non-empty response data; otherwise it is message + "\n\nAPI Response:\n" + the encoding |
| Exceptions.DefaultException | src/Exceptions/PayazaException.php:12-13 | with no arguments the message is "Payaza API error", the code 0 and no response data |
| Exceptions.MessageWithResponseData | src/Exceptions/PayazaException.php:18-21 | with non-empty array data, the text after the given message is the heading followed by the encoding of the data, and the data is stored unchanged |
| Exceptions.Raise | src/Exceptions/PayazaException.php:11-24 | an exception thrown without response data does not depend on the encoder: it equals the constructor's result for every encoder |
| StrictTypes.AsString | src/Resources/Payouts.php:62 | a `string` parameter accepts exactly the JSON strings, unchanged; anything else is a TypeError |
| StrictTypes.AsNullableString | src/Resources/Payouts.php:113 | a `?string` parameter accepts exactly strings and null (null maps to None); anything else is a TypeError |
| StrictTypes.AsArray | src/Resources/Payouts.php:105 | an `array` return accepts exactly lists and associative arrays; anything else is a TypeError |
| StrictTypes.Failure | src/Resources/Payouts.php:61-62 | `new PayazaException($message, $status)` is a PayazaException with that message and code iff the decoded message is a string, otherwise a TypeError |
| Data.NewTransactionStatus | src/Data/TransactionStatus.php:11-15 | the status is built iff the state was computed and `raw` is an array; the state's error comes first, then the TypeError for `raw` |
| Json.Truthy | src/Resources/Payouts.php:157 | a value is truthy iff it is none of null, false, 0, 0.0, "", "0" and the empty array |
| Json.Field | src/Resources/Payouts.php:60 | a string offset exists exactly in an associative array holding the key, and then yields its value |
| Json.Coalesce | src/Resources/Payouts.php:69 | `??` yields the key's value when it is set (present and non-null) and the fallback otherwise; it is null only when the fallback is |
| Json.DataGet | src/Resources/Payouts.php:61 | an empty path gives the value; a missing first key gives the default; a present single key gives its value, even a present null |
| Json.DataGetStep | src/Resources/Payouts.php:151 | a present first key continues the path inside its value |
| Json.DataGetNested | src/Resources/Cards.php:86 | a two-segment path gives the nested value when both keys are present, the default otherwise |
| Json.DataGetConcat | src/Resources/Cards.php:86 | along a path whose prefix is present, `data_get` of the whole path is `data_get` of the rest inside what the prefix reaches |
| Json.LooselyEqualsCode | src/Resources/Payouts.php:155 | a string equals the code iff it is that exact string; a value equal to a code other than "" and "0" is truthy |
| Json.LooselyEquals200 | src/Resources/Payouts.php:60 | an integer equals 200 iff it is 200; every value equal to 200 is truthy |
| Enums.Code | src/Enums/Currency.php:7-16 | every currency's backing value has three characters |
| Enums.CodeInjective | src/Enums/Currency.php:7-16 | distinct currencies have distinct backing values |
| Strings.LowerIdempotent | src/Resources/Payouts.php:115 | lower-casing twice is lower-casing once |
| Strings.Lower | src/Resources/Payouts.php:115 | lower-casing keeps the length and maps every character to its ASCII lower case |
| Strings.ReplaceAll | src/Traits/ResolvesUrls.php:25 | `str_replace` with an empty search text, or with a replacement equal to the search text, leaves the subject unchanged |
| Strings.ReplaceAllWithoutOccurrence | src/Traits/ResolvesUrls.php:25 | `str_replace` leaves a string without the search text unchanged |
| Strings.ReplaceAllFreePrefix | src/Traits/ResolvesUrls.php:25 | a prefix that cannot start the search text passes through `str_replace` unchanged |
| Strings.ReplaceAllLeading | src/Traits/ResolvesUrls.php:25 | a leading occurrence is replaced and the scan continues after it |
| Strings.SplitOnce | src/Resources/Cards.php:45 | the first part has no separator; with a separator the string is first + separator + rest, without one the parts are (string, "") |
| Strings.Join | src/PayazaServiceProvider.php:22 | no names give "", one name gives that name |
| Strings.JoinAppend | src/PayazaServiceProvider.php:22 | appending a name to a non-empty list appends the separator and the name, so any list is joined name by name with a separator between each pair |
| Transport.Http.Get | src/Resources/Payouts.php:76-78 | a GET takes the next canned answer (or the unstubbed 200) and appends itself to the trace |
| Transport.Http.Post | src/Resources/Payouts.php:55-58 | a POST takes the next canned answer and appends itself, with its payload, to the trace |
| ResolvesUrls.TenantId | src/Traits/ResolvesUrls.php:31-34 | the tenant is "live" iff the environment is LIVE and "test" iff it is TEST |
| ResolvesUrls.ResolveUrl | src/Traits/ResolvesUrls.php:14-26 | the InvalidArgument "URL configuration for '<key>' not found" occurs iff the entry is missing or falsy; a URL results iff the entry is a truthy string; a truthy non-string entry is a TypeError |
| ResolvesUrls.ResolvedUrlHasNoPlaceholder | src/Traits/ResolvesUrls.php:25 | a resolved URL contains no `{tenant}` |
| ResolvesUrls.TenantDoesNotStartTail | src/Traits/ResolvesUrls.php:23-25 | text that starts with "live" or "test" never starts with a proper tail of `{tenant}` |
| ResolvesUrls.TailSurvivesReplacement | src/Traits/ResolvesUrls.php:25 | if the replacement result starts with a tail of `{tenant}`, the input already did |
| ResolvesUrls.NoPlaceholderLeft | src/Traits/ResolvesUrls.php:25 | replacing every `{tenant}` by the tenant leaves no `{tenant}` |
| ResolvesUrls.UnchangedWithoutPlaceholder | src/Traits/ResolvesUrls.php:25 | a template without `{tenant}` resolves to itself |
| ResolvesUrls.ResolveIdempotent | src/Traits/ResolvesUrls.php:14-26 | registering a resolved URL as the template and resolving again gives the same URL |
| ResolvesUrls.SubstituteSinglePlaceholder | src/Traits/ResolvesUrls.php:25 | brace-free text around one `{tenant}` becomes that text around the tenant |
| ResolvesUrls.ResolveSinglePlaceholder | src/Traits/ResolvesUrls.php:14-26 | a registry entry with one placeholder between brace-free texts resolves to those texts around the tenant |
| ResolvesUrls.FixturePayoutSend | tests/Pest.php:26 | the unit tests' `payout_send` entry resolves under TEST to `https://api.payaza.africa/test/payout-receptor/payout` |
| ResolvesUrls.ResolveBraceFree | src/Traits/ResolvesUrls.php:25 | a brace-free entry resolves to itself |
| ResolvesUrls.FixtureCardCharge3ds | tests/Pest.php:21 | the unit tests' `card_charge_3ds` entry resolves to itself in either environment |
| Payouts.BaseUrl | src/Resources/Payouts.php:108-111 | the URL is `https://api.payaza.africa/live` iff LIVE and `https://api.payaza.africa` iff TEST |
| Payouts.MapStatus | src/Resources/Payouts.php:113-121 | null is PENDING; FAILED only when the lower-cased status is "failed" |
| Payouts.MapPayoutStatus | src/Resources/Payouts.php:123-131 | null is PENDING; a state other than PENDING comes only from a status beginning with an upper-case letter |
| Payouts.TransactionType | src/Resources/Payouts.php:133-141 | "ghipps" iff GHS; "mobile_money" iff KES, UGX, TZS or XOF; "nuban" iff NGN or USD |
| Payouts.StringCurrencyMatchesOne | src/Resources/Payouts.php:155 | an account whose `currency` is a string matches at most one currency's code |
| Payouts.TrueCurrencyMatchesAll | src/Resources/Payouts.php:155 | an account whose `currency` is `true` matches every currency under loose `==` |
| Payouts.FirstWhere | src/Resources/Payouts.php:155 | no result iff no account's `currency` loosely equals the code; a result is an account of the list that matches |
| Payouts.HasCurrency | src/Resources/Payouts.php:155 | a match needs a set `currency`; a string `currency` matches exactly its own code |
| Payouts.AccountList | src/Resources/Payouts.php:154 | the accounts are the `data` list when it is one, and none when `data` is missing |
| Payouts.FirstWhereIsFirst | src/Resources/Payouts.php:155 | the result is the first matching account, whatever follows it |
| Payouts.MatchedAccountIsTruthy | src/Resources/Payouts.php:155-159 | a matching account is a non-empty array, so `!$account` rejects only "no match" |
| Payouts.LookupReference | src/Resources/Payouts.php:150-161 | a non-2xx answer gives "Failed to retrieve account reference" with code 0; every failure is a TypeError or a PayazaException with code 0 and no data; a result needs a matching account |
| Payouts.CatchLookupError | src/Resources/Payouts.php:162-164 | the catch keeps success and a TypeError unchanged, and turns every PayazaException or InvalidArgumentException into a PayazaException with code 0, no data and the "Failed to get account reference: " prefix |
| Payouts.AccountReferenceRun | src/Resources/Payouts.php:143-165 | at most one request, never a POST; no request iff the `account_info` entry fails, and then the queue is untouched and the result is an error; otherwise exactly one GET of the resolved `account_info` URL, consuming one answer |
| Payouts.LookupShape | src/Resources/Payouts.php:143-165 | the lookup issues at most one request, never a POST; each failure is a TypeError or a PayazaException with code 0, no data and the "Failed to get account reference: " prefix |
| Payouts.LookupWithoutUrl | src/Resources/Payouts.php:145-148 | a missing `account_info` entry is rethrown under the prefix, with no request issued |
| Payouts.LookupRejected | src/Resources/Payouts.php:150-152 | a non-2xx answer gives "Failed to get account reference: Failed to retrieve account reference", code 0 |
| Payouts.LookupNoMatch | src/Resources/Payouts.php:154-159 | no matching account gives "Failed to get account reference: No account found for currency X", code 0 |
| Payouts.LookupFirstMatch | src/Resources/Payouts.php:154-161 | the first matching account's `payazaAccountReference` is returned; absent or null gives null; any other type is a TypeError |
| Payouts.SendPayload | src/Resources/Payouts.php:29-53 | one beneficiary; payout and credit amounts equal the amount; the caller's reference; the type from the currency table and the currency code; the looked-up reference; narration defaults to "Payout via Payaza SDK"; no `country` |
| Payouts.GhsPayload | src/Resources/Payouts.php:239-263 | one beneficiary with the amount and the caller's reference; always "ghipps" and "GHS"; narration defaults to "GHS Bank Transfer" |
| Payouts.MobileMoneyPayload | src/Resources/Payouts.php:179-208 | one beneficiary with the amount and the caller's reference; "mobile_money"; `country` is present iff the currency is XOF and the country is truthy, and then it is the given country |
| Payouts.MobileMoneyPayloadShape | src/Resources/Payouts.php:179-208 | one beneficiary; "mobile_money"; the phone number as account number; narration defaults to "Mobile Money Payout"; `country` is present iff the currency is XOF and the country is truthy, and then it is the given country |
| Payouts.MobileMoneyCountryOnlyChange | src/Resources/Payouts.php:205-208 | the country write changes only `country`: with it removed, the payload is the plain literal |
| Payouts.ServiceJson | src/Resources/Payouts.php:181-207 | the serialised `service_payload` has a `country` key iff the payload has a country, and one serialised beneficiary per beneficiary |
| Payouts.MapStatusIgnoresCase | src/Resources/Payouts.php:115 | the generic table gives the same state for a string and its lower-case form |
| Payouts.MapStatusExamples | src/Resources/Payouts.php:113-121 | null is PENDING; "SUCCESSFUL" and "Completed" are SUCCESSFUL; "TRANSACTION_INITIATED" is PROCESSING; "FAILED" is FAILED |
| Payouts.MapStatusFailedOnlyWhenSaid | src/Resources/Payouts.php:113-121 | FAILED iff the lower-cased status is "failed"; SUCCESSFUL iff it is "completed" or "successful"; PROCESSING iff it is "processing", "initialized" or "transaction_initiated"; so null and unknown strings are never FAILED |
| Payouts.MapPayoutStatusExact | src/Resources/Payouts.php:123-131 | SUCCESSFUL iff the status is exactly "NIP_SUCCESS"; PROCESSING iff it is exactly "NIP_PENDING" or "TRANSACTION_INITIATED"; FAILED iff it is exactly "NIP_FAILURE"; everything else, "nip_success" and null included, is PENDING |
| Payouts.MapPayoutStatusCaseSensitive | src/Resources/Payouts.php:125 | the NIP table compares exactly, so a lower-cased code is always PENDING |
| Payouts.PayoutOutcome | src/Resources/Payouts.php:60-71 | an answer that is not accepted is an error; a result echoes the caller's reference and the whole body |
| Payouts.PayoutAccepted | src/Resources/Payouts.php:60 | acceptance needs a 2xx answer with a set, truthy `response_code`; for an integer `response_code`, accepted iff the answer is 2xx and the code is 200 |
| Payouts.PayoutMessage | src/Resources/Payouts.php:61 | `response_message` when present (even null), else `message` when present, else the fallback |
| Payouts.PayoutState | src/Resources/Payouts.php:69 | a set `transaction_status` decides: a string goes through the generic table, anything else is a TypeError; otherwise a set `response_status` decides the same way; with neither set the state is PENDING; the only error is a TypeError |
| Payouts.DispatchRun | src/Resources/Payouts.php:55-58 | a failing `payout_send` entry issues nothing and leaves the queue; a result follows exactly one POST of the payload to the resolved URL and echoes the reference |
| Payouts.SendAfterLookup | src/Resources/Payouts.php:27-58 | a failed lookup is the result, with only the lookup's requests; a result follows the lookup's requests and exactly one POST after them |
| Payouts.SendRun | src/Resources/Payouts.php:24-72 | `send` starts with a GET; a result follows exactly a GET and then a POST, and echoes the caller's reference |
| Payouts.MobileMoneyRun | src/Resources/Payouts.php:167-227 | `sendMobileMoney` starts with a GET; a result follows exactly a GET and then a POST, and echoes the caller's reference |
| Payouts.MobileMoneyRunDispatches | src/Resources/Payouts.php:167-227 | after a successful lookup, `sendMobileMoney` is the lookup's GET followed by the POST of `MobileMoneyPayload` built from the reference |
| Payouts.GhsRun | src/Resources/Payouts.php:229-282 | `sendGHSBankTransfer` starts with a GET; a result follows exactly a GET and then a POST, and echoes the caller's reference |
| Payouts.PayoutFailure | src/Resources/Payouts.php:60-63 | a send fails with a PayazaException iff it is not accepted (non-2xx, no `response_code`, or `response_code` != 200) and the message is a string; the exception carries that message and the HTTP status |
| Payouts.PayoutMessageOrder | src/Resources/Payouts.php:61 | the message is `response_message`, else `message`, else the operation's fallback |
| Payouts.PayoutSuccess | src/Resources/Payouts.php:65-71 | an accepted answer yields the caller's reference, the whole body and the state; only a TypeError can still intervene |
| Payouts.PayoutStateOrder | src/Resources/Payouts.php:69 | the state is the generic table of `transaction_status`, else of `response_status`, else PENDING |
| Payouts.TransactionInitiatedIsProcessing | src/Resources/Payouts.php:65-71 | an accepted answer whose content says "TRANSACTION_INITIATED" is PROCESSING with the caller's reference |
| Payouts.LookupFailureStopsSend | src/Resources/Payouts.php:27 | when the lookup fails the send returns its error and issues no POST |
| Payouts.SendAfterSuccessfulLookup | src/Resources/Payouts.php:55-58 | after a successful lookup exactly one POST of the payload goes to `payout_send`, answered by the next response; a failing `payout_send` entry issues nothing |
| Payouts.SendEchoesReference | src/Resources/Payouts.php:67-68 | a successful send reports the caller's reference as transaction id |
| Payouts.SendRequests | src/Resources/Payouts.php:24-72 | for `send`: lookup failure means no POST; success echoes the reference; otherwise the request after the lookup is the POST of `SendPayload` |
| Payouts.StatusOutcome | src/Resources/Payouts.php:80-92 | an answer that is not accepted is an error; a result echoes the caller's reference and the whole body |
| Payouts.StatusAccepted | src/Resources/Payouts.php:80 | accepted iff the answer is 2xx and its `status` is present and truthy |
| Payouts.StatusRun | src/Resources/Payouts.php:74-93 | at most one request, never a POST; a result follows exactly one GET of `<payout_status>/<ref>` and echoes the reference |
| Payouts.StatusFailure | src/Resources/Payouts.php:80-83 | `status` fails with a PayazaException iff the answer is non-2xx or `status` is unset or falsy, and the message (`message`, else "Failed to get transaction status") is a string; every answer that is not accepted fails with `Failure` of that message and the HTTP status, so a non-string message is a TypeError; success echoes the reference and the body |
| Payouts.StatusState | src/Resources/Payouts.php:85-92 | the state is the NIP table of a set string `data.transactionStatus`, a TypeError for a set non-string, PENDING when it is unset |
| Payouts.NipSuccessScenario | src/Resources/Payouts.php:74-93 | `{status: true, data: {transactionStatus: "NIP_SUCCESS"}}` is SUCCESSFUL after one GET of `<payout_status>/<ref>` |
| Payouts.BanksRun | src/Resources/Payouts.php:95-106 | exactly one request, a GET, consuming one answer; a result comes only from a 2xx answer and is an array |
| Payouts.BanksOutcome | src/Resources/Payouts.php:101-105 | a non-2xx answer is "Unable to fetch banks" with the status; otherwise the result is `data` (default the empty list) iff it is an array, and a TypeError if not |
| Payouts.BanksContract | src/Resources/Payouts.php:95-106 | one GET of `<baseUrl>/payout/banks/<code>`; non-2xx gives "Unable to fetch banks" with the status; otherwise `data` if it is an array, else a TypeError |
| Payouts.PayoutsClient.GetAccountReference | src/Resources/Payouts.php:143-165 | result, trace and queue are those of the lookup specification |
| Payouts.PayoutsClient.Dispatch | src/Resources/Payouts.php:55-71 | result, trace and queue are those of `DispatchRun` |
| Payouts.PayoutsClient.Send | src/Resources/Payouts.php:24-72 | result, trace and queue are those of `SendRun` |
| Payouts.PayoutsClient.SendMobileMoney | src/Resources/Payouts.php:167-227 | result, trace and queue are those of `MobileMoneyRun`; the method writes `country` in place into the literal, and the payload it sends is `MobileMoneyPayload` |
| Payouts.PayoutsClient.SendGhsBankTransfer | src/Resources/Payouts.php:229-282 | result, trace and queue are those of `GhsRun` |
| Payouts.PayoutsClient.Status | src/Resources/Payouts.php:74-93 | result, trace and queue are those of `StatusRun` |
| Payouts.PayoutsClient.GetBanks | src/Resources/Payouts.php:95-106 | result, trace and queue are those of `BanksRun` |
| Cards.BaseUrl | src/Resources/Cards.php:128-131 | the URL is base + "/live" iff LIVE and the base unchanged iff TEST |
| Cards.ChargeEndpoint | src/Resources/Cards.php:50-52 | the 2DS path iff `authType` is exactly "2DS", the 3DS path otherwise |
| Cards.MapStatus | src/Resources/Cards.php:133-141 | null is PENDING; FAILED only when the lower-cased status is "failed" |
| Cards.StateOf | src/Resources/Cards.php:133 | the nullable string parameter: null is PENDING, a string goes through the cards table, anything else is a TypeError |
| Cards.ChargePayloadFor | src/Resources/Cards.php:30-48 | the names are written iff the account name is truthy, and then they are its split |
| Cards.ChargeOutcome | src/Resources/Cards.php:59-70 | a non-2xx answer is an error; a result echoes the caller's reference and the whole body |
| Cards.StatusOutcome | src/Resources/Cards.php:80-88 | a non-2xx answer gives the fixed message with the HTTP status and no data; a result echoes the reference and the whole body |
| Cards.RefundOutcome | src/Resources/Cards.php:103-107 | an error iff the answer is non-2xx; true only when the body's `status` is the string "success" |
| Cards.ChargeRun | src/Resources/Cards.php:21-71 | exactly one POST, under the base URL, consuming one answer, sending `ChargeJson` of `ChargePayloadFor` the arguments; a result echoes the reference |
| Cards.StatusRun | src/Resources/Cards.php:73-89 | exactly one POST to base URL + `/card/card_charge/transaction_status` with the reference payload, consuming one answer; a result echoes the reference |
| Cards.RefundRun | src/Resources/Cards.php:91-108 | exactly one POST to base URL + `/card/refund` with the reference and amount payload, consuming one answer; an error iff that answer is non-2xx |
| Cards.RefundStatusRun | src/Resources/Cards.php:110-126 | exactly one POST to base URL + `/card/refund/status` with the reference payload, consuming one answer; a result echoes the reference |
| Cards.SplitName | src/Resources/Cards.php:45 | `first_name` has no space; with a space the name is first + " " + last, without one last is "" |
| Cards.ServiceJson | src/Resources/Cards.php:30-48 | `first_name`/`last_name` keys are present iff the names were written, and carry them |
| Cards.MapStatusIgnoresCase | src/Resources/Cards.php:135 | the cards table gives the same state for a string and its lower-case form |
| Cards.CardAndPayoutTablesDiffer | src/Resources/Cards.php:133-141 | the cards and payouts generic tables agree except on "transaction_initiated", which is PENDING for cards and PROCESSING for payouts |
| Cards.MapStatusFailedOnlyWhenSaid | src/Resources/Cards.php:133-141 | FAILED iff the lower-cased status is "failed"; PENDING iff null or not one of the five known words |
| Cards.NameSplit | src/Resources/Cards.php:44-48 | both name keys are present iff the account name is truthy; first has no space; the name is first + " " + last, or first is the name and last "" |
| Cards.ChargePayloadFields | src/Resources/Cards.php:30-42 | amount, currency code, reference and card are the arguments', whatever the name |
| Cards.ChargeFailure | src/Resources/Cards.php:59-64 | a non-2xx answer always fails with `message` (else "Charge failed") and the HTTP status; a PayazaException iff non-2xx with a string message; a 2xx answer can only fail with a TypeError |
| Cards.ChargeSuccess | src/Resources/Cards.php:66-70 | a 2xx array body yields the caller's reference, the body and the state of `transaction.transaction_status`, PENDING when null or missing |
| Cards.ChargeRequest | src/Resources/Cards.php:30-57 | one POST, to the base URL + the endpoint chosen by `authType`, sending `ChargeJson(ChargePayloadFor(...))`; success echoes the reference |
| Cards.ChargeRequestPayload | src/Resources/Cards.php:30-48 | the POSTed `service_payload` holds the amount, the currency code, the reference and the card; `first_name`/`last_name` are present iff the account name is truthy, and then they are its split |
| Cards.ServiceJsonFields | src/Resources/Cards.php:30-42 | the fixed keys of the charge `service_payload` hold the payload's amount, currency, reference and card |
| Cards.CardQueryRequests | src/Resources/Cards.php:73-116 | `status` and `refundStatus` POST `service_payload` = {transaction_reference} to their paths; `refund` POSTs {transaction_reference, amount} to `/card/refund` |
| Cards.ChargeScenarios | src/Resources/Cards.php:66-70 | `transaction_status` "successful" is SUCCESSFUL; with `do3dsAuth: true` and "pending" it is PENDING |
| Cards.StatusContract | src/Resources/Cards.php:80-88 | non-2xx gives the fixed message with the status; success echoes the reference and body; a missing `response_content.transaction_status` is PENDING |
| Cards.RefundContract | src/Resources/Cards.php:103-107 | fails iff non-2xx, with "Refund failed" and the status; true iff 2xx and `status` is exactly the string "success" |
| Cards.CardsClient.Charge | src/Resources/Cards.php:21-71 | result, trace and queue are those of `ChargeRun`, with the in-place name write |
| Cards.CardsClient.Status | src/Resources/Cards.php:73-89 | result, trace and queue are those of `StatusRun` |
| Cards.CardsClient.Refund | src/Resources/Cards.php:91-108 | result, trace and queue are those of `RefundRun` |
| Cards.CardsClient.RefundStatus | src/Resources/Cards.php:110-126 | result, trace and queue are those of `RefundStatusRun` |
| ServiceProvider.Names | src/PayazaServiceProvider.php:22 | the configured account names, in order |
| ServiceProvider.Lookup | src/PayazaServiceProvider.php:21 | an entry is found iff the name is configured, and it is that name's entry |
| ServiceProvider.SelectEnvironment | src/PayazaServiceProvider.php:30-31 | LIVE iff the configured value is exactly the string "live" |
| ServiceProvider.ResolveClient | src/PayazaServiceProvider.php:16-34 | a client needs the default account to be configured; its environment is LIVE iff "live"; every failure is an InvalidArgumentException or a TypeError |
| ServiceProvider.DefaultAccountIsPrimary | src/PayazaServiceProvider.php:18 | an unset default account behaves as "primary" |
| ServiceProvider.MissingAccount | src/PayazaServiceProvider.php:21-23 | an empty table or an unconfigured default gives "No account configured for '<name>' - available: <names joined by ','>" |
| ServiceProvider.MissingKey | src/PayazaServiceProvider.php:25-28 | a missing, null, "" or "0" key gives "API key for account '<name>' is not configured" |
| ServiceProvider.ClientBuilt | src/PayazaServiceProvider.php:25-33 | a client results iff the account is configured with a truthy string key; its token is the encoding of that key and its environment is LIVE iff "live" |
| ServiceProvider.InvalidDefaultAccount | src/PayazaServiceProvider.php:21-23 | selecting "invalid" against the accounts primary and premium lists "primary,premium" |
| ServiceProvider.FixtureClient | tests/Pest.php:11-16 | the unit tests' configuration gives the primary key's encoding and TEST |

## Left out

- HTTP transport: the Laravel `Http` factory, timeouts and `ConnectionException` are not modelled. A request always gets the next canned response; an exhausted queue answers 200 with an empty body.
- The global header and option wiring of src/PayazaClient.php, and the unused InjectHeaders middleware, are left out: they only configure the shared HTTP factory.
- The facade src/Payaza.php, config/payaza.php, `mergeConfigFrom` and `publishes` are left out. Configuration values are plain parameters.
- src/Resources/Accounts.php is not part of this model. Its only logic, the `/live` suffix, is the one in `Cards.BaseUrl`.
- `json_encode` and `base64_encode` are function parameters and are not defined.
- `Str::lower` is ASCII lower-casing; multibyte case mapping is not modelled.
- Config keys containing dots are not modelled: the URL registry is a flat map, whereas `config("payaza.urls.{$key}")` would read a dotted key as a nested path.
- `data_get` is a lookup by path segments; wildcards are not modelled.
- Amounts are `real` and are only forwarded; float formatting is not modelled.
- The `previous` throwable of `PayazaException` is not modelled.
- Card expiry fields are plain integers, as in src/Data/Card.php, with no padding.
- Json.LooselyEquals200: PHP 8 `== 200` also accepts numeric strings such as "200.0" or " 200"; the model accepts only "200" among strings.
- Payload arrays are `map`s, so the key order `json_encode` would emit is not modelled; the API does not depend on it.
- Payouts.AccountList: a `data` field that is an associative array rather than a list is read as holding no accounts. `collect()` would search its values in insertion order, which a `map` does not keep.
- Tests that contradict the code are not encoded:
  - a card failure expected to give FAILED instead of an exception;
  - a connection-error message;
  - `responseData` on a failed charge;
  - the `Payaza::account` switching and `currency()` filter tests;
  - payout tests whose answers omit `response_code` and `status`.
- `CardsContract::charge` declares a seventh parameter, `?string $callbackUrl = null`, that `Cards::charge` does not have. PHP rejects an implementation that drops a parameter of its interface, so loading `Cards` as written fails. The model follows the six-parameter `Cards::charge`; `callbackUrl` and the signature mismatch are not modelled.
- The `do3dsAuth` flag has no special meaning in the cards client. The scenario in `Cards.ChargeScenarios` shows it is ignored.
