/** The failures the service reports as `{"success": False, "error": ...}`,
    with the text it puts in `error`. */
module Errors {

  datatype ServiceError =
    | CurrencyPairRequired
    | CollateralNotPositive
    | LeverageNotPositive
    | TradeIdRequired
    | AmountNotPositive
    | PositionNotFound(id: string)
    | NotAnInteger(text: string)      // the ValueError of int(text)
    | SdkMissing(attribute: string)   // the AttributeError of using the SDK while it is None
    | MissingKey(key: string)         // the KeyError of a missing key
    | OrderIdMissing
    | Raised(message: string)         // any other exception, by its text

  /** The `error` text of each failure. It documents the texts only: the
      contracts elsewhere are stated over `ServiceError` values, never over
      these strings. */
  function Message(e: ServiceError): string {
    match e
    case CurrencyPairRequired => "Currency pair is required"
    case CollateralNotPositive => "Collateral must be positive"
    case LeverageNotPositive => "Leverage must be positive"
    case TradeIdRequired => "Trade ID is required"
    case AmountNotPositive => "Collateral amount must be positive"
    case PositionNotFound(id) => "Position with ID " + id + " not found or already closed"
    case NotAnInteger(text) => "invalid literal for int() with base 10: '" + text + "'"
    case SdkMissing(attribute) => "'NoneType' object has no attribute '" + attribute + "'"
    case MissingKey(key) => "'" + key + "'"
    case OrderIdMissing => "Failed to get order ID"
    case Raised(message) => message
  }
}
