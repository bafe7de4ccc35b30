/** The readonly data classes of the SDK as values. */
module Data {
  import opened Wrappers
  import opened Json
  import opened Enums
  import opened Exceptions
  import opened StrictTypes

  /** The result of a charge, payout or status query; `raw` is the whole decoded body. */
  datatype TransactionStatus = TransactionStatus(transactionId: string, state: TransactionState, raw: Json)

  /** A card as the charge payload uses it; the expiry fields are plain integers, never padded. */
  datatype Card = Card(number: string, expiryMonth: int, expiryYear: int, cvc: string)

  datatype PayoutBeneficiary = PayoutBeneficiary(
    accountName: string,
    accountNumber: string,
    bankCode: string,
    amount: real,
    currency: Currency,
    narration: Option<string>)

  /**
   * `new TransactionStatus(transactionId: $ref, state: <computed>, raw: $response->json())`:
   * arguments are evaluated left to right, and `raw` must be an array.
   */
  function NewTransactionStatus(transactionId: string, state: Result<TransactionState>, raw: Json): (r: Result<TransactionStatus>)
    ensures r.Ok? <==> state.Ok? && IsArray(raw)
    ensures r.Ok? ==> r.value == TransactionStatus(transactionId, state.value, raw)
    ensures r.Err? ==> r.error == (if state.Err? then state.error else TypeError)
  {
    if state.Err? then Err(state.error)
    else match AsArray(raw)
      case Ok(body) => Ok(TransactionStatus(transactionId, state.value, body))
      case Err(e) => Err(e)
  }
}
