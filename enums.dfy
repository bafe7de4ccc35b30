/** The backed enums of the SDK: currencies, environments and canonical transaction states. */
module Enums {

  datatype Currency = USD | NGN | GHS | XOF | KES | UGX | TZS

  /** The enum's backing value `$currency->value`. */
  function Code(c: Currency): (code: string)
    ensures |code| == 3
  {
    match c
    case USD => "USD"
    case NGN => "NGN"
    case GHS => "GHS"
    case XOF => "XOF"
    case KES => "KES"
    case UGX => "UGX"
    case TZS => "TZS"
  }

  lemma CodeInjective(a: Currency, b: Currency)
    ensures Code(a) == Code(b) ==> a == b
  {
  }

  datatype Environment = TEST | LIVE

  datatype TransactionState = PENDING | PROCESSING | SUCCESSFUL | FAILED
}
