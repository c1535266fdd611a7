/** Webhook reconciliation: authenticate a gateway event, and on a
    `charge.success` for a pending transaction mark it successful, dispatch
    the crypto payout it asks for, and compensate to `failed` when any step
    after the lookup throws. */
module WebhookService {
  import opened PaymentTypes
  import opened Persistence

  /** An inbound event: its kind and its `data` object. */
  datatype Event = Event(kind: string, data: map<string, Json>)

  /** The keyed digest, left uninterpreted: HMAC-SHA-512 (RFC 2104) as a hex
      string over the serialisation of the event, under the shared secret. */
  datatype Signer = Signer(
    secret: string,
    hmacSha512Hex: (string, string) -> string,
    stringify: Event -> string)

  function Digest(signer: Signer, event: Event): string {
    signer.hmacSha512Hex(signer.secret, signer.stringify(event))
  }

  /** How each call that can throw turns out in one delivery: the lookup, the
      write of `success`, the payout, the write of the payout hash and the
      compensating write of `failed`. */
  datatype WebhookOracles = WebhookOracles(
    lookup: DbOutcome,
    markSuccess: DbOutcome,
    payout: Result<string>,
    recordHash: DbOutcome,
    markFailed: DbOutcome)

  /** The arguments of one call to the payout dispatcher. */
  datatype PayoutRequest = PayoutRequest(walletAddress: string, amount: int, asset: string)

  /** The table after a delivery, what the handler returned or threw, and the
      payout it dispatched, if any. */
  datatype Reconciled = Reconciled(
    records: map<Ref, Transaction>,
    result: Result<()>,
    payout: Option<PayoutRequest>)

  const ChargeSuccess := "charge.success"
  const InvalidSignature := Error("Invalid webhook signature")
  /** Thrown by the database client when the lookup has no string key. */
  const InvalidLookupKey := Error("Argument `paystackRef` is missing.")

  /** `event.data.reference`, when it is a string. */
  function ReferenceOf(data: map<string, Json>): Option<Ref> {
    if "reference" in data && data["reference"].JString? then Some(data["reference"].s) else None
  }

  /** The snapshot after a successful payout: the event data with the
      payout hash added, the hash taking the place of any field of that name. */
  function WithPayoutHash(data: map<string, Json>, txHash: string): (j: Json)
    ensures j.JObject? && j.fields.Keys == data.Keys + {"cryptoTransactionHash"}
    ensures j.fields["cryptoTransactionHash"] == JString(txHash)
    ensures forall k :: k in data && k != "cryptoTransactionHash" ==> j.fields[k] == data[k]
  {
    JObject(data["cryptoTransactionHash" := JString(txHash)])
  }

  /** The catch block: write `failed` (status only) and re-throw `error`; if
      that write throws, its error is what escapes. */
  function Compensate(records: map<Ref, Transaction>, id: nat, error: Error, env: WebhookOracles,
                      payout: Option<PayoutRequest>): (o: Reconciled)
    ensures o.result.Err? && o.payout == payout
    ensures env.markFailed.Committed? ==>
      o.result == Err(error) && o.records == UpdateWhereId(records, id, Patch(Some(Failed), None))
    ensures env.markFailed.DbFailed? ==> o.result == Err(env.markFailed.error) && o.records == records
  {
    if env.markFailed.DbFailed? then Reconciled(records, Err(env.markFailed.error), payout)
    else Reconciled(UpdateWhereId(records, id, Patch(Some(Failed), None)), Err(error), payout)
  }

  /** The try block, for the pending transaction `t`. */
  function Process(records: map<Ref, Transaction>, t: Transaction, data: map<string, Json>,
                   env: WebhookOracles): (o: Reconciled)
    ensures o.result.Ok? <==> TryBlockError(t, env).None?
    ensures o.result.Err? && env.markFailed.Committed? ==> o.result == Err(TryBlockError(t, env).value)
    ensures o.payout.Some? <==> env.markSuccess.Committed? && t.cryptoIntent.Some?
    ensures o.payout.Some? ==>
      o.payout.value == PayoutRequest(t.cryptoIntent.value.walletAddress, t.amount, t.cryptoIntent.value.asset)
    ensures o.records.Keys == records.Keys
  {
    if env.markSuccess.DbFailed? then Compensate(records, t.id, env.markSuccess.error, env, None)
    else
      var marked := UpdateWhereId(records, t.id, Patch(Some(Success), Some(JObject(data))));
      match t.cryptoIntent
      case None => Reconciled(marked, Ok(()), None)
      case Some(intent) =>
        var request := Some(PayoutRequest(intent.walletAddress, t.amount, intent.asset));
        if env.payout.Err? then Compensate(marked, t.id, env.payout.error, env, request)
        else if env.recordHash.DbFailed? then Compensate(marked, t.id, env.recordHash.error, env, request)
        else Reconciled(UpdateWhereId(marked, t.id, Patch(None, Some(WithPayoutHash(data, env.payout.value)))),
                        Ok(()), request)
  }

  /** What one delivery of `event` with header `signature` does. */
  function Reconcile(records: map<Ref, Transaction>, event: Event, signature: string, signer: Signer,
                     env: WebhookOracles): (o: Reconciled)
    ensures o.records.Keys == records.Keys
    ensures Digest(signer, event) != signature ==> o.result == Err(InvalidSignature)
    ensures Digest(signer, event) == signature && event.kind != ChargeSuccess ==> o.result == Ok(())
    ensures o.payout.Some? ==>
      && ReferenceOf(event.data).Some? && ReferenceOf(event.data).value in records
      && var t := records[ReferenceOf(event.data).value];
      && t.status == Pending && t.cryptoIntent.Some?
      && o.payout.value == PayoutRequest(t.cryptoIntent.value.walletAddress, t.amount, t.cryptoIntent.value.asset)
  {
    if Digest(signer, event) != signature then Reconciled(records, Err(InvalidSignature), None)
    else if event.kind != ChargeSuccess then Reconciled(records, Ok(()), None)
    else match ReferenceOf(event.data)
      case None => Reconciled(records, Err(InvalidLookupKey), None)
      case Some(ref) =>
        if env.lookup.DbFailed? then Reconciled(records, Err(env.lookup.error), None)
        else if ref !in records || records[ref].status != Pending then Reconciled(records, Ok(()), None)
        else Process(records, records[ref], event.data, env)
  }

  /** The handler. Its writes go through the store one at a time, as the
      database calls do. */
  method HandlePaystackWebhook(store: TransactionStore, event: Event, signature: string, signer: Signer,
                               env: WebhookOracles)
    returns (r: Result<()>, payout: Option<PayoutRequest>)
    requires store.Valid()
    modifies store
    ensures store.Valid() && store.nextId == old(store.nextId)
    ensures var o := Reconcile(old(store.records), event, signature, signer, env);
      store.records == o.records && r == o.result && payout == o.payout
  {
    payout := None;
    var hash := Digest(signer, event);
    if hash != signature {
      return Err(InvalidSignature), None;
    }
    if event.kind != ChargeSuccess {
      return Ok(()), None;
    }
    var ref := ReferenceOf(event.data);
    if ref.None? {
      return Err(InvalidLookupKey), None;
    }
    var found := store.FindByReference(ref.value, env.lookup);
    if found.Err? {
      return Err(found.error), None;
    }
    if found.value.None? || found.value.value.status != Pending {
      return Ok(()), None;
    }
    var transaction := found.value.value;
    assert HasId(store.records, transaction.id) by {
      assert store.records[ref.value].id == transaction.id;
    }

    // try
    var failure: Option<Error> := None;
    var written := store.Update(transaction.id, Patch(Some(Success), Some(JObject(event.data))), env.markSuccess);
    if written.Err? {
      failure := Some(written.error);
    } else if transaction.cryptoIntent.Some? {
      var intent := transaction.cryptoIntent.value;
      payout := Some(PayoutRequest(intent.walletAddress, transaction.amount, intent.asset));
      var txHash := env.payout;
      if txHash.Err? {
        failure := Some(txHash.error);
      } else {
        assert store.records[ref.value].id == transaction.id;
        var hashWritten := store.Update(transaction.id, Patch(None, Some(WithPayoutHash(event.data, txHash.value))),
                                        env.recordHash);
        if hashWritten.Err? {
          failure := Some(hashWritten.error);
        }
      }
    }

    // catch
    if failure.Some? {
      assert store.records[ref.value].id == transaction.id;
      var compensated := store.Update(transaction.id, Patch(Some(Failed), None), env.markFailed);
      if compensated.Err? {
        return Err(compensated.error), payout;
      }
      return Err(failure.value), payout;
    }
    return Ok(()), payout;
  }

  // ---------------------------------------------------------------------
  // Properties of one delivery

  /** A forged event throws before the table is read and changes nothing. */
  lemma RejectsForgedEvent(records: map<Ref, Transaction>, event: Event, signature: string, signer: Signer,
                           env: WebhookOracles)
    requires Digest(signer, event) != signature
    ensures Reconcile(records, event, signature, signer, env) == Reconciled(records, Err(InvalidSignature), None)
  {
  }

  /** An authentic event of any other kind is accepted and ignored. */
  lemma IgnoresOtherEvents(records: map<Ref, Transaction>, event: Event, signature: string, signer: Signer,
                           env: WebhookOracles)
    requires Digest(signer, event) == signature && event.kind != ChargeSuccess
    ensures Reconcile(records, event, signature, signer, env) == Reconciled(records, Ok(()), None)
  {
  }

  /** The idempotency guard: a delivery writes a row or dispatches a payout
      only when it is authentic, is a `charge.success`, and its reference
      names a row that is still pending. */
  lemma ActsOnlyOnPendingRecord(records: map<Ref, Transaction>, event: Event, signature: string, signer: Signer,
                                env: WebhookOracles)
    ensures var o := Reconcile(records, event, signature, signer, env);
      (o.records != records || o.payout.Some?) ==>
        && Digest(signer, event) == signature
        && event.kind == ChargeSuccess
        && ReferenceOf(event.data).Some?
        && ReferenceOf(event.data).value in records
        && records[ReferenceOf(event.data).value].status == Pending
  {
  }

  /** The looked-up row is the only one a delivery can write: the update,
      the hash write and the compensation all select it by its unique id. */
  lemma WritesOnlyLookedUpRecord(records: map<Ref, Transaction>, event: Event, signature: string, signer: Signer,
                                 env: WebhookOracles)
    requires WellFormed(records)
    ensures var o := Reconcile(records, event, signature, signer, env);
      && WellFormed(o.records)
      && o.records.Keys == records.Keys
      && forall k :: k in records && ReferenceOf(event.data) != Some(k) ==> o.records[k] == records[k]
  {
    var o := Reconcile(records, event, signature, signer, env);
    if o.records != records {
      ActsOnlyOnPendingRecord(records, event, signature, signer, env);
      var ref := ReferenceOf(event.data).value;
      ProcessWritesOneRow(records, ref, event.data, env);
    }
  }

  /** A row never returns to `pending`: a row that changes was pending and
      ends `success` or `failed`, with only its status and snapshot written. */
  lemma NeverRevertsToPending(records: map<Ref, Transaction>, event: Event, signature: string, signer: Signer,
                              env: WebhookOracles)
    requires WellFormed(records)
    ensures var o := Reconcile(records, event, signature, signer, env);
      forall k :: k in records ==>
        k in o.records &&
        (|| o.records[k] == records[k]
         || (&& records[k].status == Pending
             && o.records[k].status in {Success, Failed}
             && o.records[k] == records[k].(status := o.records[k].status,
                                            paystackData := o.records[k].paystackData)))
  {
    var o := Reconcile(records, event, signature, signer, env);
    if o.records != records {
      ActsOnlyOnPendingRecord(records, event, signature, signer, env);
      var ref := ReferenceOf(event.data).value;
      ProcessWritesOneRow(records, ref, event.data, env);
    }
  }

  /** The catch block writes the row under `ref` and no other. */
  lemma CompensateWritesOneRow(records: map<Ref, Transaction>, ref: Ref, error: Error, env: WebhookOracles,
                               payout: Option<PayoutRequest>)
    requires WellFormed(records) && ref in records
    ensures var o := Compensate(records, records[ref].id, error, env, payout);
      && WellFormed(o.records)
      && o.records == (if env.markFailed.DbFailed? then records
                       else records[ref := records[ref].(status := Failed)])
  {
    UpdateWritesOneRow(records, ref, Patch(Some(Failed), None));
  }

  /** Inside the try block every write selects the row under `ref`, so the
      table differs from before in that row's status and snapshot at most,
      and the status it ends with is not `pending` unless nothing was written. */
  lemma ProcessWritesOneRow(records: map<Ref, Transaction>, ref: Ref, data: map<string, Json>, env: WebhookOracles)
    requires WellFormed(records) && ref in records && records[ref].status == Pending
    ensures var o := Process(records, records[ref], data, env);
      && ref in o.records
      && o.records == records[ref := records[ref].(status := o.records[ref].status,
                                                   paystackData := o.records[ref].paystackData)]
      && WellFormed(o.records)
      && (o.records == records || o.records[ref].status in {Success, Failed})
  {
    var t := records[ref];
    var o := Process(records, t, data, env);
    if env.markSuccess.DbFailed? {
      CompensateWritesOneRow(records, ref, env.markSuccess.error, env, None);
    } else {
      var p := Patch(Some(Success), Some(JObject(data)));
      var t1 := t.(status := Success, paystackData := JObject(data));
      var marked := UpdateWhereId(records, t.id, p);
      UpdateWritesOneRow(records, ref, p);
      assert marked == records[ref := t1];
      if t.cryptoIntent.Some? {
        var request := Some(PayoutRequest(t.cryptoIntent.value.walletAddress, t.amount, t.cryptoIntent.value.asset));
        if env.payout.Err? {
          CompensateWritesOneRow(marked, ref, env.payout.error, env, request);
        } else if env.recordHash.DbFailed? {
          CompensateWritesOneRow(marked, ref, env.recordHash.error, env, request);
        } else {
          UpdateWritesOneRow(marked, ref, Patch(None, Some(WithPayoutHash(data, env.payout.value))));
        }
      }
    }
  }

  /** A pending row without a payout instruction, with every write
      committed, ends `success` with the event data as its snapshot, and no
      payout is dispatched. */
  lemma SettlesWithoutIntent(records: map<Ref, Transaction>, event: Event, signature: string, signer: Signer,
                             env: WebhookOracles, ref: Ref)
    requires WellFormed(records)
    requires Digest(signer, event) == signature && event.kind == ChargeSuccess
    requires ReferenceOf(event.data) == Some(ref) && ref in records && records[ref].status == Pending
    requires records[ref].cryptoIntent.None?
    requires env.lookup.Committed? && env.markSuccess.Committed?
    ensures var o := Reconcile(records, event, signature, signer, env);
      && o.result == Ok(())
      && o.payout == None
      && o.records == records[ref := records[ref].(status := Success, paystackData := JObject(event.data))]
  {
    UpdateWritesOneRow(records, ref, Patch(Some(Success), Some(JObject(event.data))));
  }

  /** A pending row with a payout instruction gets exactly one payout of its
      own amount to the instructed wallet; when the payout and the writes
      succeed it ends `success` with the event data plus the payout hash. */
  lemma PaysOutIntent(records: map<Ref, Transaction>, event: Event, signature: string, signer: Signer,
                      env: WebhookOracles, ref: Ref)
    requires WellFormed(records)
    requires Digest(signer, event) == signature && event.kind == ChargeSuccess
    requires ReferenceOf(event.data) == Some(ref) && ref in records && records[ref].status == Pending
    requires records[ref].cryptoIntent.Some?
    requires env.lookup.Committed? && env.markSuccess.Committed?
    ensures var o := Reconcile(records, event, signature, signer, env);
      && o.payout == Some(PayoutRequest(records[ref].cryptoIntent.value.walletAddress, records[ref].amount,
                                        records[ref].cryptoIntent.value.asset))
      && (env.payout.Ok? && env.recordHash.Committed? ==>
            && o.result == Ok(())
            && o.records == records[ref := records[ref].(status := Success,
                                                         paystackData := WithPayoutHash(event.data, env.payout.value))])
  {
    var p := Patch(Some(Success), Some(JObject(event.data)));
    UpdateWritesOneRow(records, ref, p);
    if env.payout.Ok? {
      var marked := UpdateWhereId(records, records[ref].id, p);
      UpdateWritesOneRow(marked, ref, Patch(None, Some(WithPayoutHash(event.data, env.payout.value))));
    }
  }

  /** The error a step of the try block throws, if one does. */
  function TryBlockError(t: Transaction, env: WebhookOracles): Option<Error> {
    if env.markSuccess.DbFailed? then Some(env.markSuccess.error)
    else if t.cryptoIntent.None? then None
    else if env.payout.Err? then Some(env.payout.error)
    else if env.recordHash.DbFailed? then Some(env.recordHash.error)
    else None
  }

  /** When a step of the try block throws, the row is written `failed`
      (its snapshot keeps whatever was committed before) and the error is
      thrown on to the caller; if that compensating write throws too, its
      error escapes and the row keeps what was committed before. */
  lemma CompensatesFailure(records: map<Ref, Transaction>, event: Event, signature: string, signer: Signer,
                           env: WebhookOracles, ref: Ref)
    requires WellFormed(records)
    requires Digest(signer, event) == signature && event.kind == ChargeSuccess
    requires ReferenceOf(event.data) == Some(ref) && ref in records && records[ref].status == Pending
    requires env.lookup.Committed? && TryBlockError(records[ref], env).Some?
    ensures var o := Reconcile(records, event, signature, signer, env);
      var committed := if env.markSuccess.Committed? then JObject(event.data) else records[ref].paystackData;
      && (env.markFailed.Committed? ==>
            && o.result == Err(TryBlockError(records[ref], env).value)
            && o.records == records[ref := records[ref].(status := Failed, paystackData := committed)])
      && (env.markFailed.DbFailed? ==>
            && o.result == Err(env.markFailed.error)
            && o.records == (if env.markSuccess.Committed?
                             then records[ref := records[ref].(status := Success, paystackData := committed)]
                             else records))
  {
    var t := records[ref];
    if env.markSuccess.DbFailed? {
      UpdateWritesOneRow(records, ref, Patch(Some(Failed), None));
    } else {
      var p := Patch(Some(Success), Some(JObject(event.data)));
      var marked := UpdateWhereId(records, t.id, p);
      UpdateWritesOneRow(records, ref, p);
      UpdateWritesOneRow(marked, ref, Patch(Some(Failed), None));
    }
  }

  /** A dispatched payout belongs to the row the event names, which was
      pending before the delivery and is not pending after it. */
  lemma PayoutSettlesRecord(records: map<Ref, Transaction>, event: Event, signature: string, signer: Signer,
                            env: WebhookOracles)
    requires WellFormed(records)
    ensures var o := Reconcile(records, event, signature, signer, env);
      o.payout.Some? ==>
        && ReferenceOf(event.data).Some?
        && var ref := ReferenceOf(event.data).value;
        && ref in records && records[ref].status == Pending
        && ref in o.records && o.records[ref].status != Pending
  {
    var o := Reconcile(records, event, signature, signer, env);
    if o.payout.Some? {
      ActsOnlyOnPendingRecord(records, event, signature, signer, env);
      var ref := ReferenceOf(event.data).value;
      var t := records[ref];
      var p := Patch(Some(Success), Some(JObject(event.data)));
      var marked := UpdateWhereId(records, t.id, p);
      UpdateWritesOneRow(records, ref, p);
      UpdateWritesOneRow(marked, ref, Patch(Some(Failed), None));
      if env.payout.Ok? {
        UpdateWritesOneRow(marked, ref, Patch(None, Some(WithPayoutHash(event.data, env.payout.value))));
      }
    }
  }

  /** Redelivery: once a delivery has returned normally, delivering the same
      event again writes nothing and dispatches no payout, however the second
      delivery's calls turn out. */
  lemma RedeliveryIsNoOp(records: map<Ref, Transaction>, event: Event, signature: string, signer: Signer,
                         first: WebhookOracles, second: WebhookOracles)
    requires WellFormed(records)
    requires Reconcile(records, event, signature, signer, first).result.Ok?
    ensures var after := Reconcile(records, event, signature, signer, first).records;
      var o := Reconcile(after, event, signature, signer, second);
      && o.records == after
      && o.payout.None?
      && (second.lookup.Committed? ==> o.result == Ok(()))
  {
    var o1 := Reconcile(records, event, signature, signer, first);
    if o1.records != records {
      ActsOnlyOnPendingRecord(records, event, signature, signer, first);
      var ref := ReferenceOf(event.data).value;
      ProcessWritesOneRow(records, ref, event.data, first);
    }
  }

  /** Redelivery after a delivery that wrote the table, whether it settled
      the row or compensated it to `failed`: the same event again writes
      nothing and dispatches no payout. */
  lemma RedeliveryAfterWriteIsNoOp(records: map<Ref, Transaction>, event: Event, signature: string, signer: Signer,
                                   first: WebhookOracles, second: WebhookOracles)
    requires WellFormed(records)
    requires Reconcile(records, event, signature, signer, first).records != records
    ensures var after := Reconcile(records, event, signature, signer, first).records;
      var o := Reconcile(after, event, signature, signer, second);
      && o.records == after
      && o.payout.None?
      && (second.lookup.Committed? ==> o.result == Ok(()))
  {
    ActsOnlyOnPendingRecord(records, event, signature, signer, first);
    var ref := ReferenceOf(event.data).value;
    ProcessWritesOneRow(records, ref, event.data, first);
  }

  // ---------------------------------------------------------------------
  // Properties of a sequence of deliveries

  /** One inbound webhook call. */
  datatype Delivery = Delivery(event: Event, signature: string, env: WebhookOracles)

  /** The table after a sequence of deliveries, handled one after another,
      and the reference of each delivery that dispatched a payout, in order. */
  function Replay(records: map<Ref, Transaction>, deliveries: seq<Delivery>, signer: Signer)
    : (map<Ref, Transaction>, seq<Ref>)
    decreases |deliveries|
  {
    if deliveries == [] then (records, [])
    else
      var d := deliveries[0];
      var o := Reconcile(records, d.event, d.signature, signer, d.env);
      var rest := Replay(o.records, deliveries[1..], signer);
      (rest.0, PaidOut(o, d.event) + rest.1)
  }

  /** The reference a delivery paid out, if it dispatched a payout. */
  function PaidOut(o: Reconciled, event: Event): seq<Ref> {
    if o.payout.Some? && ReferenceOf(event.data).Some? then [ReferenceOf(event.data).value] else []
  }

  /** A row that is no longer pending is never written again and never paid
      out again, whatever is delivered. */
  lemma {:induction false} SettledRecordIsFrozen(records: map<Ref, Transaction>, deliveries: seq<Delivery>,
                                                 signer: Signer, ref: Ref)
    requires WellFormed(records) && ref in records && records[ref].status != Pending
    ensures var final, paid := Replay(records, deliveries, signer).0, Replay(records, deliveries, signer).1;
      ref in final && final[ref] == records[ref] && ref !in paid && WellFormed(final)
    decreases |deliveries|
  {
    if deliveries != [] {
      var d := deliveries[0];
      var o := Reconcile(records, d.event, d.signature, signer, d.env);
      NeverRevertsToPending(records, d.event, d.signature, signer, d.env);
      WritesOnlyLookedUpRecord(records, d.event, d.signature, signer, d.env);
      PayoutSettlesRecord(records, d.event, d.signature, signer, d.env);
      SettledRecordIsFrozen(o.records, deliveries[1..], signer, ref);
    }
  }

  /** No reference occurs twice. */
  predicate Distinct(refs: seq<Ref>) {
    forall i, j :: 0 <= i < j < |refs| ==> refs[i] != refs[j]
  }

  /** Every reference names a row that has left `pending`. */
  predicate AllSettled(records: map<Ref, Transaction>, refs: seq<Ref>) {
    forall i :: 0 <= i < |refs| ==> refs[i] in records && records[refs[i]].status != Pending
  }

  lemma DistinctPrepend(refs: seq<Ref>, prefix: seq<Ref>)
    requires Distinct(refs) && |prefix| <= 1 && forall r :: r in prefix ==> r !in refs
    ensures Distinct(prefix + refs)
  {
    var all := prefix + refs;
    forall i, j | 0 <= i < j < |all|
      ensures all[i] != all[j]
    {
      if i < |prefix| {
        assert all[i] in prefix && all[j] == refs[j - |prefix|];
      } else {
        assert all[i] == refs[i - |prefix|] && all[j] == refs[j - |prefix|];
      }
    }
  }

  lemma AllSettledPrepend(records: map<Ref, Transaction>, refs: seq<Ref>, prefix: seq<Ref>)
    requires AllSettled(records, refs) && AllSettled(records, prefix)
    ensures AllSettled(records, prefix + refs)
  {
    var all := prefix + refs;
    forall i | 0 <= i < |all|
      ensures all[i] in records && records[all[i]].status != Pending
    {
      if i < |prefix| {
        assert all[i] == prefix[i];
      } else {
        assert all[i] == refs[i - |prefix|];
      }
    }
  }

  /** However often and in whatever order events are delivered, no row is
      paid out twice, and every row that was paid out has left `pending`. */
  lemma {:induction false} PaysOutAtMostOncePerRecord(records: map<Ref, Transaction>, deliveries: seq<Delivery>,
                                                      signer: Signer)
    requires WellFormed(records)
    ensures var run := Replay(records, deliveries, signer);
      Distinct(run.1) && AllSettled(run.0, run.1)
    decreases |deliveries|
  {
    if deliveries != [] {
      var d := deliveries[0];
      var o := Reconcile(records, d.event, d.signature, signer, d.env);
      WritesOnlyLookedUpRecord(records, d.event, d.signature, signer, d.env);
      PayoutSettlesRecord(records, d.event, d.signature, signer, d.env);
      PaysOutAtMostOncePerRecord(o.records, deliveries[1..], signer);
      var rest := Replay(o.records, deliveries[1..], signer);
      var paid := PaidOut(o, d.event);
      assert Replay(records, deliveries, signer) == (rest.0, paid + rest.1);
      if paid != [] {
        var ref := ReferenceOf(d.event.data).value;
        SettledRecordIsFrozen(o.records, deliveries[1..], signer, ref);
        assert paid == [ref];
      }
      DistinctPrepend(rest.1, paid);
      AllSettledPrepend(rest.0, rest.1, paid);
    }
  }
}
