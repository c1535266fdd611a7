/** The value types shared by the payment relay: the request and configuration
    records of src/types/payment.d.ts, the stored transaction row, JSON values
    and the thrown errors. */
module PaymentTypes {

  datatype Option<+T> = None | Some(value: T)

  /** A thrown JavaScript `Error`; only its message reaches a caller. */
  datatype Error = Error(message: string)

  /** A call that either returns a value or throws. */
  datatype Result<+T> = Ok(value: T) | Err(error: Error)

  /** A JSON value, as the gateway payloads and the stored snapshot are. */
  datatype Json =
    | JNull
    | JBool(b: bool)
    | JNumber(n: int)
    | JString(s: string)
    | JArray(items: seq<Json>)
    | JObject(fields: map<string, Json>)

  /** The payment methods a country may offer. A request body is untyped, so
      a payment method is any string; only these three appear in the table. */
  const Card := "card"
  const MobileMoney := "mobile_money"
  const BankTransfer := "bank_transfer"

  /** JavaScript truthiness of an optional string: present and not empty. */
  predicate Truthy(s: Option<string>) {
    s.Some? && s.value != ""
  }

  /** A payout instruction: which asset to send to which wallet. */
  datatype CryptoIntent = CryptoIntent(asset: string, walletAddress: string)

  datatype InitiatePaymentParams = InitiatePaymentParams(
    email: string,
    amount: int,               // major units, a whole number
    currency: string,
    paymentMethod: string,
    mobileProvider: Option<string>,
    cryptoIntent: Option<CryptoIntent>)

  datatype CountryPaymentConfig = CountryPaymentConfig(
    currency: string,
    paymentMethods: seq<string>,
    mobileProviders: Option<seq<string>>,
    minAmount: int,
    maxAmount: int)

  datatype Status = Pending | Success | Failed

  /** One row of the transaction table. */
  datatype Transaction = Transaction(
    id: nat,
    paystackRef: string,
    amount: int,
    currency: string,
    userEmail: string,
    paymentMethod: string,
    mobileProvider: Option<string>,
    status: Status,
    cryptoIntent: Option<CryptoIntent>,
    paystackData: Json)
}
