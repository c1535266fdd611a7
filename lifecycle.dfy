/** The life of one transaction across both flows: created pending by an
    accepted payment, then settled by the gateway's confirmation. */
module Lifecycle {
  import opened PaymentTypes
  import opened Persistence
  import opened PaymentService
  import opened WebhookService

  /** An accepted payment without a payout instruction, followed by an
      authentic `charge.success` for its reference whose write commits,
      leaves the row `success` with the event data as its snapshot; a
      second delivery of that event then changes nothing. */
  lemma InitiatedThenConfirmed(records: map<Ref, Transaction>, nextId: nat, params: InitiatePaymentParams,
                               callbackUrl: Option<string>, gateway: Result<InitResponse>, db: DbOutcome,
                               event: Event, signature: string, signer: Signer,
                               env: WebhookOracles, again: WebhookOracles)
    requires WellFormed(records) && forall r :: r in records ==> records[r].id < nextId
    requires params.cryptoIntent.None?
    requires Digest(signer, event) == signature && event.kind == ChargeSuccess
    requires env.lookup.Committed? && env.markSuccess.Committed?
    ensures var created := Initiate(records, nextId, params, callbackUrl, gateway, db);
      created.result.Ok? && ReferenceOf(event.data) == Some(created.result.value.reference) ==>
        var ref := created.result.value.reference;
        var confirmed := Reconcile(created.records, event, signature, signer, env);
        && confirmed.result == Ok(())
        && confirmed.payout.None?
        && confirmed.records[ref].status == Success
        && confirmed.records[ref].paystackData == JObject(event.data)
        && Reconcile(confirmed.records, event, signature, signer, again).records == confirmed.records
  {
    var created := Initiate(records, nextId, params, callbackUrl, gateway, db);
    if created.result.Ok? && ReferenceOf(event.data) == Some(created.result.value.reference) {
      var ref := created.result.value.reference;
      InsertsOnePendingRecord(records, nextId, params, callbackUrl, gateway, db);
      InitiationPreservesTable(records, nextId, params, callbackUrl, gateway, db);
      SettlesWithoutIntent(created.records, event, signature, signer, env, ref);
      RedeliveryIsNoOp(created.records, event, signature, signer, env, again);
    }
  }
}
