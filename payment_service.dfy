/** Payment initiation: resolve the country of a currency, check the payment
    method and the mobile provider, build the gateway payload, call the
    gateway, and store one pending transaction. */
module PaymentService {
  import opened PaymentTypes
  import opened Persistence

  /** `COUNTRY_CONFIGS`, a record keyed by country code. */
  const CountryConfigs: map<string, CountryPaymentConfig> := map[
    "KE" := CountryPaymentConfig("KES", [MobileMoney, Card], Some(["mpesa", "airtel"]), 10, 150000),
    "NG" := CountryPaymentConfig("NGN", [Card, BankTransfer], None, 100, 5000000),
    "GH" := CountryPaymentConfig("GHS", [MobileMoney, Card], Some(["mtn", "vodafone", "airteltigo"]), 1, 5000)
  ]

  /** The keys of `COUNTRY_CONFIGS` in the order its entries are enumerated. */
  const CountryOrder: seq<string> := ["KE", "NG", "GH"]

  predicate Configured(codes: seq<string>) {
    forall i :: 0 <= i < |codes| ==> codes[i] in CountryConfigs
  }

  function UnsupportedCurrency(currency: string): Error {
    Error("Unsupported currency: " + currency)
  }

  function MethodNotAvailable(currency: string): Error {
    Error("Payment method not available for " + currency)
  }

  const ProviderRequired := Error("Mobile provider required for mobile money payments")

  /** The position of the first of `codes` whose currency is `currency`. */
  function FirstWithCurrency(codes: seq<string>, currency: string): (i: Option<nat>)
    requires Configured(codes)
    ensures i.Some? ==> i.value < |codes| && CountryConfigs[codes[i.value]].currency == currency
    ensures i.Some? ==> forall j :: 0 <= j < i.value ==> CountryConfigs[codes[j]].currency != currency
    ensures i.None? ==> forall j :: 0 <= j < |codes| ==> CountryConfigs[codes[j]].currency != currency
    decreases |codes|
  {
    if codes == [] then None
    else if CountryConfigs[codes[0]].currency == currency then Some(0)
    else match FirstWithCurrency(codes[1..], currency)
      case None => None
      case Some(k) => Some(k + 1)
  }

  /** The country code the source resolves `currency` to, if any: a
      configured country with that currency, and none only when no
      configured country has it. */
  function CountryOf(currency: string): (c: Option<string>)
    ensures c.Some? ==> c.value in CountryConfigs && CountryConfigs[c.value].currency == currency
    ensures c.None? <==> forall code :: code in CountryConfigs ==> CountryConfigs[code].currency != currency
  {
    match FirstWithCurrency(CountryOrder, currency)
    case None => None
    case Some(i) => Some(CountryOrder[i])
  }

  /** The table supports exactly three currencies, one per country. */
  lemma SupportedCurrencies(currency: string)
    ensures CountryOf(currency) ==
      if currency == "KES" then Some("KE")
      else if currency == "NGN" then Some("NG")
      else if currency == "GHS" then Some("GH")
      else None
  {
    var i := FirstWithCurrency(CountryOrder, currency);
    if i.Some? {
      assert i.value == 0 || i.value == 1 || i.value == 2;
    }
  }

  /** `getCountryFromCurrency`: scan the table for the first entry with this
      currency and return its key, or throw. */
  method GetCountryFromCurrency(currency: string) returns (r: Result<string>)
    ensures r.Ok? ==> r.value in CountryConfigs && CountryConfigs[r.value].currency == currency
    ensures r == (if CountryOf(currency).Some? then Ok(CountryOf(currency).value) else Err(UnsupportedCurrency(currency)))
  {
    var i := 0;
    while i < |CountryOrder|
      invariant 0 <= i <= |CountryOrder|
      invariant forall j :: 0 <= j < i ==> CountryConfigs[CountryOrder[j]].currency != currency
    {
      var code := CountryOrder[i];
      if CountryConfigs[code].currency == currency {
        ghost var first := FirstWithCurrency(CountryOrder, currency);
        assert first == Some(i) by {
          if first.None? {
          } else if first.value < i {
          } else if first.value > i {
          }
        }
        return Ok(code);
      }
      i := i + 1;
    }
    return Err(UnsupportedCurrency(currency));
  }

  /** The checks made before the gateway is called: a supported currency, a
      payment method the country offers, and a provider for mobile money.
      Amount bounds and provider membership are not checked. */
  function Validate(params: InitiatePaymentParams): (r: Result<CountryPaymentConfig>)
    ensures r.Ok? <==>
      && CountryOf(params.currency).Some?
      && params.paymentMethod in CountryConfigs[CountryOf(params.currency).value].paymentMethods
      && (params.paymentMethod == MobileMoney ==> Truthy(params.mobileProvider))
    ensures r.Ok? ==> r.value.currency == params.currency && params.paymentMethod in r.value.paymentMethods
    ensures CountryOf(params.currency).None? ==> r == Err(UnsupportedCurrency(params.currency))
    ensures CountryOf(params.currency).Some? && r.Err? ==>
      r.error == if params.paymentMethod !in CountryConfigs[CountryOf(params.currency).value].paymentMethods
                 then MethodNotAvailable(params.currency) else ProviderRequired
  {
    match CountryOf(params.currency)
    case None => Err(UnsupportedCurrency(params.currency))
    case Some(code) =>
      var config := CountryConfigs[code];
      if params.paymentMethod !in config.paymentMethods then Err(MethodNotAvailable(params.currency))
      else if params.paymentMethod == MobileMoney && !Truthy(params.mobileProvider) then Err(ProviderRequired)
      else Ok(config)
  }

  /** Examples of rejected requests: a method the country does not offer,
      an unknown currency, and mobile money without a provider. */
  lemma RejectionExamples(params: InitiatePaymentParams)
    ensures params.currency == "KES" && params.paymentMethod == BankTransfer ==>
      Validate(params) == Err(MethodNotAvailable("KES"))
    ensures params.currency == "NGN" && params.paymentMethod == MobileMoney ==>
      Validate(params) == Err(MethodNotAvailable("NGN"))
    ensures params.currency == "USD" ==> Validate(params) == Err(UnsupportedCurrency("USD"))
    ensures params.currency in {"KES", "GHS"} && params.paymentMethod == MobileMoney && !Truthy(params.mobileProvider) ==>
      Validate(params) == Err(ProviderRequired)
  {
    SupportedCurrencies(params.currency);
  }

  datatype MobileMoneyDetails = MobileMoneyDetails(provider: string)

  /** The payload metadata; an undefined provider is not serialised. */
  datatype PaymentMetadata = PaymentMetadata(paymentMethod: string, mobileProvider: Option<string>)

  /** The body sent to the gateway's `initialize`; `amount` is in minor units. */
  datatype GatewayPayload = GatewayPayload(
    email: string,
    amount: int,
    currency: string,
    channels: seq<string>,
    callbackUrl: Option<string>,
    metadata: PaymentMetadata,
    mobileMoney: Option<MobileMoneyDetails>)

  /** The payload for a request: the amount in minor units, the method as
      the only channel, the provider in the metadata for mobile money, and a
      `mobile_money` block when a provider is given. */
  function Payload(params: InitiatePaymentParams, callbackUrl: Option<string>): (p: GatewayPayload)
    ensures p.amount == params.amount * 100
    ensures p.email == params.email && p.currency == params.currency && p.callbackUrl == callbackUrl
    ensures p.channels == [params.paymentMethod] && p.metadata.paymentMethod == params.paymentMethod
    ensures p.metadata.mobileProvider.Some? <==> params.paymentMethod == MobileMoney && params.mobileProvider.Some?
    ensures p.metadata.mobileProvider.Some? ==> p.metadata.mobileProvider == params.mobileProvider
    ensures p.mobileMoney.Some? <==> params.paymentMethod == MobileMoney && Truthy(params.mobileProvider)
    ensures p.mobileMoney.Some? ==> p.mobileMoney.value.provider == params.mobileProvider.value
  {
    var mobile := params.paymentMethod == MobileMoney;
    GatewayPayload(
      params.email, params.amount * 100, params.currency, [params.paymentMethod], callbackUrl,
      PaymentMetadata(params.paymentMethod, if mobile then params.mobileProvider else None),
      if mobile && Truthy(params.mobileProvider) then Some(MobileMoneyDetails(params.mobileProvider.value)) else None)
  }

  /** What the gateway's `initialize` answers: the reference it assigned,
      the checkout URL and its raw data. */
  datatype InitResponse = InitResponse(reference: string, authorizationUrl: string, data: Json)

  datatype PaymentResult = PaymentResult(authorizationUrl: string, reference: string, transactionId: nat)

  /** The row stored for an accepted request (its id is assigned on insert):
      pending, under the gateway's reference and with its raw data, copying
      the request, and keeping the provider only when one was given. */
  function Draft(params: InitiatePaymentParams, response: InitResponse): (t: Transaction)
    ensures t.status == Pending && t.paystackRef == response.reference && t.paystackData == response.data
    ensures t.amount == params.amount && t.currency == params.currency && t.userEmail == params.email
    ensures t.paymentMethod == params.paymentMethod && t.cryptoIntent == params.cryptoIntent
    ensures t.mobileProvider.Some? <==> Truthy(params.mobileProvider)
    ensures t.mobileProvider.Some? ==> t.mobileProvider == params.mobileProvider
  {
    Transaction(
      0, response.reference, params.amount, params.currency, params.email, params.paymentMethod,
      if Truthy(params.mobileProvider) then params.mobileProvider else None,
      Pending, params.cryptoIntent, response.data)
  }

  /** The table, the next id, what was returned or thrown, and the payload
      sent to the gateway, if it was called. */
  datatype Initiated = Initiated(
    records: map<Ref, Transaction>,
    nextId: nat,
    result: Result<PaymentResult>,
    sent: Option<GatewayPayload>)

  /** What one call of `initiatePayment` does, given how the gateway call
      and the insert turn out. */
  function Initiate(records: map<Ref, Transaction>, nextId: nat, params: InitiatePaymentParams,
                    callbackUrl: Option<string>, gateway: Result<InitResponse>, db: DbOutcome): (o: Initiated)
    ensures o.sent.Some? <==> Validate(params).Ok?
    ensures o.sent.Some? ==> o.sent.value == Payload(params, callbackUrl)
    ensures o.result.Ok? <==>
      Validate(params).Ok? && gateway.Ok? && gateway.value.reference !in records && db.Committed?
    ensures o.result.Err? ==> o.records == records && o.nextId == nextId
    ensures o.result.Ok? ==>
      && o.records == records[gateway.value.reference := Draft(params, gateway.value).(id := nextId)]
      && o.nextId == nextId + 1
      && o.result.value == PaymentResult(gateway.value.authorizationUrl, gateway.value.reference, nextId)
  {
    match Validate(params)
    case Err(e) => Initiated(records, nextId, Err(e), None)
    case Ok(_) =>
      var payload := Payload(params, callbackUrl);
      match gateway
      case Err(e) => Initiated(records, nextId, Err(e), Some(payload))
      case Ok(response) =>
        match CreateResult(records, nextId, Draft(params, response), db)
        case Err(e) => Initiated(records, nextId, Err(e), Some(payload))
        case Ok(t) =>
          Initiated(records[t.paystackRef := t], nextId + 1,
                    Ok(PaymentResult(response.authorizationUrl, response.reference, t.id)), Some(payload))
  }

  /** `initiatePayment`. */
  method InitiatePayment(store: TransactionStore, params: InitiatePaymentParams, callbackUrl: Option<string>,
                         gateway: Result<InitResponse>, db: DbOutcome)
    returns (r: Result<PaymentResult>, sent: Option<GatewayPayload>)
    requires store.Valid()
    modifies store
    ensures store.Valid()
    ensures var o := Initiate(old(store.records), old(store.nextId), params, callbackUrl, gateway, db);
      store.records == o.records && store.nextId == o.nextId && r == o.result && sent == o.sent
  {
    sent := None;
    var countryCode := GetCountryFromCurrency(params.currency);
    if countryCode.Err? {
      return Err(countryCode.error), None;
    }
    var config := CountryConfigs[countryCode.value];
    if params.paymentMethod !in config.paymentMethods {
      return Err(MethodNotAvailable(params.currency)), None;
    }
    if params.paymentMethod == MobileMoney && !Truthy(params.mobileProvider) {
      return Err(ProviderRequired), None;
    }

    var payload := GatewayPayload(
      params.email, params.amount * 100, params.currency, [params.paymentMethod], callbackUrl,
      PaymentMetadata(params.paymentMethod, if params.paymentMethod == MobileMoney then params.mobileProvider else None),
      None);
    if params.paymentMethod == MobileMoney && Truthy(params.mobileProvider) {
      payload := payload.(mobileMoney := Some(MobileMoneyDetails(params.mobileProvider.value)));
    }

    sent := Some(payload);
    if gateway.Err? {
      return Err(gateway.error), sent;
    }
    var response := gateway.value;
    var transaction := store.Create(Draft(params, response), db);
    if transaction.Err? {
      return Err(transaction.error), sent;
    }
    return Ok(PaymentResult(response.authorizationUrl, response.reference, transaction.value.id)), sent;
  }

  // ---------------------------------------------------------------------
  // Properties

  /** Every rejected request fails before the gateway is called and before
      anything is stored. */
  lemma ValidatesBeforeSideEffects(records: map<Ref, Transaction>, nextId: nat, params: InitiatePaymentParams,
                                   callbackUrl: Option<string>, gateway: Result<InitResponse>, db: DbOutcome)
    ensures var o := Initiate(records, nextId, params, callbackUrl, gateway, db);
      o.sent.None? <==> Validate(params).Err?
    ensures var o := Initiate(records, nextId, params, callbackUrl, gateway, db);
      o.result.Err? ==> o.records == records && o.nextId == nextId
    ensures var o := Initiate(records, nextId, params, callbackUrl, gateway, db);
      Validate(params).Err? ==> o.result == Err(Validate(params).error)
  {
  }

  /** An accepted payment inserts exactly one row, under the gateway's
      reference and with a fresh id: pending, with the request's amount,
      currency, email and method, the provider only when one was given, and
      the payout instruction as given. The caller gets that reference and id. */
  lemma InsertsOnePendingRecord(records: map<Ref, Transaction>, nextId: nat, params: InitiatePaymentParams,
                                callbackUrl: Option<string>, gateway: Result<InitResponse>, db: DbOutcome)
    requires WellFormed(records) && forall r :: r in records ==> records[r].id < nextId
    ensures var o := Initiate(records, nextId, params, callbackUrl, gateway, db);
      o.result.Ok? ==>
        && gateway.Ok?
        && var ref := gateway.value.reference;
        && ref !in records
        && o.records.Keys == records.Keys + {ref}
        && (forall k :: k in records ==> o.records[k] == records[k])
        && var t := o.records[ref];
        && t.status == Pending
        && t.paystackRef == ref == o.result.value.reference
        && t.id == o.result.value.transactionId
        && (forall k :: k in records ==> records[k].id != t.id)
        && t.amount == params.amount && t.currency == params.currency
        && t.userEmail == params.email && t.paymentMethod == params.paymentMethod
        && t.mobileProvider == (if Truthy(params.mobileProvider) then params.mobileProvider else None)
        && t.cryptoIntent == params.cryptoIntent
        && o.result.value.authorizationUrl == gateway.value.authorizationUrl
  {
  }

  /** The payload of an accepted request carries the provider, in the
      metadata and in the `mobile_money` block, exactly when the method is
      mobile money. */
  lemma AcceptedPayloadShape(records: map<Ref, Transaction>, nextId: nat, params: InitiatePaymentParams,
                             callbackUrl: Option<string>, gateway: Result<InitResponse>, db: DbOutcome)
    ensures var o := Initiate(records, nextId, params, callbackUrl, gateway, db);
      o.sent.Some? ==>
        && o.sent.value.amount == 100 * params.amount
        && o.sent.value.channels == [params.paymentMethod]
        && o.sent.value.metadata.paymentMethod == params.paymentMethod
        && (o.sent.value.metadata.mobileProvider.Some? <==> params.paymentMethod == MobileMoney)
        && (o.sent.value.mobileMoney.Some? <==> params.paymentMethod == MobileMoney)
  {
  }

  /** Initiation keeps the table well formed and never touches an existing
      row, so it cannot move a settled transaction back to pending. */
  lemma InitiationPreservesTable(records: map<Ref, Transaction>, nextId: nat, params: InitiatePaymentParams,
                                 callbackUrl: Option<string>, gateway: Result<InitResponse>, db: DbOutcome)
    requires WellFormed(records) && forall r :: r in records ==> records[r].id < nextId
    ensures var o := Initiate(records, nextId, params, callbackUrl, gateway, db);
      && WellFormed(o.records)
      && (forall r :: r in o.records ==> o.records[r].id < o.nextId)
      && (forall k :: k in records ==> k in o.records && o.records[k] == records[k])
  {
  }
}
