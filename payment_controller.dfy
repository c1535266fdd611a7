/** The payment-creation endpoint: map the request body to the service's
    parameters, building a payout instruction only from a complete pair of
    crypto fields, and map the service's result or error to the response. */
module PaymentController {
  import opened PaymentTypes
  import opened Persistence
  import opened PaymentService

  /** The fields the endpoint reads from the request body. */
  datatype PaymentRequestBody = PaymentRequestBody(
    email: string,
    amount: int,
    currency: string,
    paymentMethod: string,
    mobileProvider: Option<string>,
    cryptoAsset: Option<string>,
    cryptoWalletAddress: Option<string>)

  /** The JSON body of the response. */
  datatype ResponseBody =
    | PaymentCreated(paymentUrl: string, reference: string)    // { success: true, data: { paymentUrl, reference } }
    | PaymentRejected(error: string)                          // { success: false, error }
  {
    predicate Success() { PaymentCreated? }
  }

  datatype HttpResponse = HttpResponse(statusCode: nat, body: ResponseBody)

  /** A payout instruction exists exactly when both crypto fields are given
      and non-empty, and then it carries them unchanged. */
  function CryptoIntentOf(asset: Option<string>, walletAddress: Option<string>): (intent: Option<CryptoIntent>)
    ensures intent.Some? <==> Truthy(asset) && Truthy(walletAddress)
    ensures intent.Some? ==> intent.value.asset == asset.value && intent.value.walletAddress == walletAddress.value
  {
    if Truthy(asset) && Truthy(walletAddress) then Some(CryptoIntent(asset.value, walletAddress.value)) else None
  }

  /** The service parameters: the request fields unchanged, plus the
      payout instruction. */
  function ServiceParams(body: PaymentRequestBody): (params: InitiatePaymentParams)
    ensures params.email == body.email && params.amount == body.amount && params.currency == body.currency
    ensures params.paymentMethod == body.paymentMethod && params.mobileProvider == body.mobileProvider
    ensures params.cryptoIntent.Some? <==> Truthy(body.cryptoAsset) && Truthy(body.cryptoWalletAddress)
  {
    InitiatePaymentParams(body.email, body.amount, body.currency, body.paymentMethod, body.mobileProvider,
                          CryptoIntentOf(body.cryptoAsset, body.cryptoWalletAddress))
  }

  /** A result becomes `200` with the checkout URL and the reference (the
      transaction id is not exposed); any error becomes `400` with its message. */
  function PaymentResponse(result: Result<PaymentResult>): (response: HttpResponse)
    ensures response.body.Success() <==> result.Ok?
    ensures response.statusCode == (if result.Ok? then 200 else 400)
    ensures result.Ok? ==>
      response.body.paymentUrl == result.value.authorizationUrl && response.body.reference == result.value.reference
    ensures result.Err? ==> response.body.error == result.error.message
  {
    match result
    case Ok(r) => HttpResponse(200, PaymentCreated(r.authorizationUrl, r.reference))
    case Err(e) => HttpResponse(400, PaymentRejected(e.message))
  }

  /** `createPayment`. */
  method CreatePayment(store: TransactionStore, body: PaymentRequestBody, callbackUrl: Option<string>,
                       gateway: Result<InitResponse>, db: DbOutcome)
    returns (response: HttpResponse)
    requires store.Valid()
    modifies store
    ensures store.Valid()
    ensures var o := Initiate(old(store.records), old(store.nextId), ServiceParams(body), callbackUrl, gateway, db);
      store.records == o.records && store.nextId == o.nextId && response == PaymentResponse(o.result)
  {
    var cryptoIntent := CryptoIntentOf(body.cryptoAsset, body.cryptoWalletAddress);
    var params := InitiatePaymentParams(body.email, body.amount, body.currency, body.paymentMethod,
                                        body.mobileProvider, cryptoIntent);
    var result, _ := InitiatePayment(store, params, callbackUrl, gateway, db);
    response := PaymentResponse(result);
  }

  /** A request that is answered `200` has stored a pending row under the
      reference it returns, carrying the payout instruction exactly when both
      crypto fields were given. */
  lemma CreatedResponseHasPendingRecord(records: map<Ref, Transaction>, nextId: nat, body: PaymentRequestBody,
                                        callbackUrl: Option<string>, gateway: Result<InitResponse>, db: DbOutcome)
    requires WellFormed(records) && forall r :: r in records ==> records[r].id < nextId
    ensures var o := Initiate(records, nextId, ServiceParams(body), callbackUrl, gateway, db);
      var response := PaymentResponse(o.result);
      response.statusCode == 200 ==>
        && response.body.reference in o.records
        && response.body.reference !in records
        && o.records[response.body.reference].status == Pending
        && (o.records[response.body.reference].cryptoIntent.Some? <==>
              Truthy(body.cryptoAsset) && Truthy(body.cryptoWalletAddress))
  {
    InsertsOnePendingRecord(records, nextId, ServiceParams(body), callbackUrl, gateway, db);
  }

  /** Mobile money without a provider is answered `400` with the service's
      message, and nothing is stored. */
  lemma MobileMoneyWithoutProvider(records: map<Ref, Transaction>, nextId: nat, body: PaymentRequestBody,
                                   callbackUrl: Option<string>, gateway: Result<InitResponse>, db: DbOutcome)
    requires body.currency == "KES" && body.paymentMethod == MobileMoney && body.mobileProvider.None?
    ensures var o := Initiate(records, nextId, ServiceParams(body), callbackUrl, gateway, db);
      && PaymentResponse(o.result) == HttpResponse(400, PaymentRejected(ProviderRequired.message))
      && o.records == records && o.sent.None?
  {
    RejectionExamples(ServiceParams(body));
  }
}
