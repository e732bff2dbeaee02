/** CompletePaymentHandler: completes a Pending payment found by reference, stores it, appends its
    domain events and sets up an encrypted webhook notification for it. The steps are not one
    transaction: a step that throws leaves the earlier steps' writes in place. */
module CompletePaymentHandlers {
  import opened Primitives
  import opened Wrappers
  import opened Enums
  import opened ValueObjects
  import opened DomainEvents
  import opened LedgerEntries
  import opened PaymentLedger
  import opened Payments
  import opened EventStore
  import opened WebhookDeliveries
  import opened WebhookAggregates
  import opened Repositories
  import opened Commands

  /** The key the handler passes to EncryptedPayload.Encrypt, as written: 15 characters. */
  const HardcodedKey: string := "your-secret-key"

  /** The anonymous object serialised as the webhook's payload. */
  datatype WebhookPayload = WebhookPayload(
    paymentId: Guid,
    status: string,
    reference: string,
    amount: Int32,
    currency: string,
    completedAt: Option<Timestamp>)

  /** System.Text.Json as the handler uses it, not looked inside: the payload object, and the
      EncryptedPayload handed to AddDelivery. */
  datatype WebhookJson = WebhookJson(
    payload: WebhookPayload -> string,
    envelope: EncryptedPayload -> string)

  /** The payment as MarkCompleted leaves it: Completed at `now`, with the clearing debit and the
      merchant credit of its amount appended. */
  function CompletedRecord(p: PaymentRecord, debitId: Guid, creditId: Guid, now: Timestamp,
                           hasher: TransactionHasher): (r: PaymentRecord)
    requires RecordValid(p) && p.status == Pending && debitId != EmptyGuid && creditId != EmptyGuid
    ensures RecordValid(r)
    ensures r.id == p.id && r.reference == p.reference && r.amount == p.amount && r.webhookUrl == p.webhookUrl
    ensures r.status == Completed && r.completedAt == Some(now)
    ensures |r.ledgerEntries| == |p.ledgerEntries| + 2 && r.ledgerEntries[..|p.ledgerEntries|] == p.ledgerEntries
    ensures AccountBalance(r.ledgerEntries, Customer) == AccountBalance(p.ledgerEntries, Customer)
    ensures AccountBalance(r.ledgerEntries, Clearing) == AccountBalance(p.ledgerEntries, Clearing) - p.amount.amount
    ensures AccountBalance(r.ledgerEntries, Merchant) == AccountBalance(p.ledgerEntries, Merchant) + p.amount.amount
  {
    SettleBalances(p.ledgerEntries, p.id, p.amount.amount, debitId, creditId, now, hasher);
    p.(status := Completed, completedAt := Some(now),
       ledgerEntries := p.ledgerEntries + SettleEntries(p.id, p.amount.amount, debitId, creditId, now, hasher))
  }

  /** Appending the settlement pair moves the amount from clearing to the merchant and keeps the
      net balance. */
  lemma SettleBalances(entries: seq<LedgerEntry>, paymentId: Guid, amount: Int32, debitId: Guid, creditId: Guid,
                       now: Timestamp, hasher: TransactionHasher)
    ensures var e := entries + SettleEntries(paymentId, amount, debitId, creditId, now, hasher);
            && NetBalance(e) == NetBalance(entries)
            && AccountBalance(e, Customer) == AccountBalance(entries, Customer)
            && AccountBalance(e, Clearing) == AccountBalance(entries, Clearing) - amount
            && AccountBalance(e, Merchant) == AccountBalance(entries, Merchant) + amount
  {
    var settle := SettleEntries(paymentId, amount, debitId, creditId, now, hasher);
    NetBalanceAppend(entries, settle);
    PairBalances(settle[0], settle[1], Customer);
    PairBalances(settle[0], settle[1], Clearing);
    PairBalances(settle[0], settle[1], Merchant);
    AccountBalanceAppend(entries, settle, Customer);
    AccountBalanceAppend(entries, settle, Clearing);
    AccountBalanceAppend(entries, settle, Merchant);
  }

  /** The events a completion raises: PaymentCompleted, then FundsSettled. */
  function CompletionEvents(p: PaymentRecord, now: Timestamp): seq<DomainEvent> {
    [PaymentCompletedEvent(p.id, p.id, now), FundsSettledEvent(p.id, p.id, p.amount.amount, now)]
  }

  /** !string.IsNullOrEmpty(WebhookUrl): a whitespace URL counts as present. */
  predicate WantsWebhook(p: PaymentRecord) {
    p.webhookUrl.Some? && |p.webhookUrl.value| > 0
  }

  /** What the webhook payload reports of a completed payment. */
  function NotificationOf(p: PaymentRecord): WebhookPayload {
    WebhookPayload(p.id, "COMPLETED", p.reference.value, p.amount.amount, p.amount.currency, p.completedAt)
  }

  /** The exception the webhook set-up throws before anything is stored, if any: encrypting the
      payload under `key`, then the delivery's own checks. */
  function WebhookSetUp(p: PaymentRecord, key: string, nonce: string, aead: Aead, json: WebhookJson): (r: Outcome<Exception>)
    requires WantsWebhook(p) && p.id != EmptyGuid && !IsBlank(nonce)
    ensures Encrypt(json.payload(NotificationOf(p)), key, nonce, aead).Failure? ==>
              r == Fail(Encrypt(json.payload(NotificationOf(p)), key, nonce, aead).error)
    ensures r.Pass? <==>
              && Encrypt(json.payload(NotificationOf(p)), key, nonce, aead).Success?
              && !IsBlank(p.webhookUrl.value)
              && !IsBlank(json.envelope(Encrypt(json.payload(NotificationOf(p)), key, nonce, aead).value))
  {
    var encrypted := Encrypt(json.payload(NotificationOf(p)), key, nonce, aead);
    if encrypted.Failure? then Fail(encrypted.error)
    else ValidateDelivery(p.id, p.webhookUrl.value, json.envelope(encrypted.value))
  }

  /** What the handler returns, and what the webhook table `after` holds, once the completed payment
      `done` and its events are stored: without a URL, the Completed response; when the set-up
      throws, that exception; otherwise the new aggregate is added, unless the unique index on
      PaymentId already holds one for the payment, which makes SaveChanges fail. */
  predicate WebhookStepDone(done: PaymentRecord, key: string, nonce: string, aead: Aead, json: WebhookJson, now: Timestamp,
                            before: seq<WebhookAggregate>, after: seq<WebhookAggregate>,
                            r: Result<CompletePaymentResponse, Exception>)
    requires done.id != EmptyGuid && !IsBlank(nonce)
  {
    && (!WantsWebhook(done) ==>
          r == Success(CompletePaymentResponse(done.id, "Completed", now)) && after == before)
    && (WantsWebhook(done) && WebhookSetUp(done, key, nonce, aead, json).Fail? ==>
          r == Failure(WebhookSetUp(done, key, nonce, aead, json).error) && after == before)
    && (WantsWebhook(done) && WebhookSetUp(done, key, nonce, aead, json).Pass? ==>
          && (r.Success? <==> forall i :: 0 <= i < |before| ==> before[i].paymentId != done.id)
          && (r.Success? ==> r.value == CompletePaymentResponse(done.id, "Completed", now)
                             && |after| == |before| + 1 && after[..|before|] == before
                             && after[|before|].paymentId == done.id)
          && (r.Failure? ==> r.error == DbUpdate(DbUpdateMessage) && after == before))
  }

  class CompletePaymentHandler {
    const payments: PaymentRepository
    const webhooks: WebhookRepository
    const eventStore: EfEventStore
    /** The webhook encryption key. */
    const secretKey: string

    constructor (payments: PaymentRepository, webhooks: WebhookRepository, eventStore: EfEventStore, secretKey: string)
      ensures this.payments == payments && this.webhooks == webhooks && this.eventStore == eventStore
      ensures this.secretKey == secretKey
    {
      this.payments, this.webhooks, this.eventStore, this.secretKey := payments, webhooks, eventStore, secretKey;
    }

    /** The webhook set-up of a completed payment: a new aggregate for the payment with one delivery
        carrying the encrypted payload, stored unless the payment already has one. */
    method SetUpWebhook(p: PaymentRecord, webhookId: Guid, deliveryId: Guid, nonce: string, now: Timestamp,
                        aead: Aead, json: WebhookJson) returns (r: Outcome<Exception>)
      requires webhooks.Valid() && WantsWebhook(p) && p.id != EmptyGuid
      requires webhookId != EmptyGuid && deliveryId != EmptyGuid && !IsBlank(nonce)
      modifies webhooks
      ensures webhooks.Valid()
      ensures WebhookSetUp(p, secretKey, nonce, aead, json).Fail? ==>
                r == WebhookSetUp(p, secretKey, nonce, aead, json) && webhooks.aggregates == old(webhooks.aggregates)
      ensures WebhookSetUp(p, secretKey, nonce, aead, json).Pass? &&
              (exists i :: 0 <= i < |old(webhooks.aggregates)| && old(webhooks.aggregates)[i].paymentId == p.id) ==>
                r == Fail(DbUpdate(DbUpdateMessage)) && webhooks.aggregates == old(webhooks.aggregates)
      ensures WebhookSetUp(p, secretKey, nonce, aead, json).Pass? &&
              (forall i :: 0 <= i < |old(webhooks.aggregates)| ==> old(webhooks.aggregates)[i].paymentId != p.id) ==>
                && r == Pass
                && |webhooks.aggregates| == |old(webhooks.aggregates)| + 1
                && webhooks.aggregates[..|old(webhooks.aggregates)|] == old(webhooks.aggregates)
                && var a := webhooks.aggregates[|old(webhooks.aggregates)|];
                   && fresh(a) && a.id == webhookId && a.paymentId == p.id && a.createdAt == now
                   && |a.deliveries| == 1 && a.deliveries[0].url == p.webhookUrl.value
                   && a.deliveries[0].encryptedPayload
                        == json.envelope(Encrypt(json.payload(NotificationOf(p)), secretKey, nonce, aead).value)
                   && a.deliveries[0].State() == InitialAttemptState
    {
      var created := WebhookAggregate.Create(webhookId, p.id, now);
      var aggregate := created.value;
      var payload := json.payload(NotificationOf(p));
      var encrypted := Encrypt(payload, secretKey, nonce, aead);
      if encrypted.Failure? {
        return Fail(encrypted.error);
      }
      var delivered := aggregate.AddDelivery(deliveryId, p.webhookUrl.value, json.envelope(encrypted.value), now);
      if delivered.Fail? {
        return Fail(delivered.error);
      }
      r := webhooks.Add(aggregate);
    }

    /** What the handler does once MarkCompleted has succeeded: the payment's row is replaced by its
        completed state, its pending events are appended, and the webhook is set up if it has a URL. */
    method StoreCompletion(done: PaymentRecord, events: seq<DomainEvent>, k: nat, rowIds: seq<Guid>, webhookId: Guid,
                           deliveryId: Guid, nonce: string, now: Timestamp, codec: JsonCodec, aead: Aead, json: WebhookJson)
      returns (r: Result<CompletePaymentResponse, Exception>)
      requires payments.Valid() && webhooks.Valid() && RecordValid(done)
      requires k < |payments.rows| && payments.rows[k].id == done.id && payments.rows[k].reference == done.reference
      requires done.status == Completed && done.completedAt == Some(now) && |rowIds| == |events|
      requires webhookId != EmptyGuid && deliveryId != EmptyGuid && !IsBlank(nonce)
      modifies payments, eventStore, webhooks
      ensures payments.Valid() && webhooks.Valid()
      ensures payments.rows == ReplaceById(old(payments.rows), done)
      ensures FindByReference(payments.rows, done.reference.value) == Some(done)
      ensures eventStore.rows == old(eventStore.rows) + AppendedRows(done.id, events, rowIds, now, codec, AsDeclaredType)
      ensures WebhookStepDone(done, secretKey, nonce, aead, json, now, old(webhooks.aggregates), webhooks.aggregates, r)
    {
      ReplaceKeepsTableValid(payments.rows, done, k);
      payments.Update(done);
      AppendEach(eventStore, done.id, events, rowIds, now, codec);
      if WantsWebhook(done) {
        var queued := SetUpWebhook(done, webhookId, deliveryId, nonce, now, aead, json);
        if queued.Fail? {
          return Failure(queued.error);
        }
      }
      return Success(CompletePaymentResponse(done.id, StatusName(done.status), done.completedAt.value));
    }

    /** The handler from Load on: MarkCompleted refuses a payment that is not Pending; a Pending
        one is completed and stored as StoreCompletion says. */
    method CompleteStored(stored: PaymentRecord, k: nat, debitId: Guid, creditId: Guid, rowIds: seq<Guid>, webhookId: Guid,
                          deliveryId: Guid, nonce: string, now: Timestamp, codec: JsonCodec, hasher: TransactionHasher,
                          aead: Aead, json: WebhookJson)
      returns (r: Result<CompletePaymentResponse, Exception>)
      requires payments.Valid() && webhooks.Valid()
      requires k < |payments.rows| && payments.rows[k] == stored && RecordValid(stored)
      requires FindByReference(payments.rows, stored.reference.value) == Some(stored)
      requires debitId != EmptyGuid && creditId != EmptyGuid && |rowIds| == 2
      requires webhookId != EmptyGuid && deliveryId != EmptyGuid && !IsBlank(nonce)
      modifies payments, eventStore, webhooks
      ensures payments.Valid() && webhooks.Valid()
      ensures stored.status != Pending ==>
                && r == Failure(InvalidOperation("Cannot complete payment in " + StatusName(stored.status) + " state"))
                && payments.rows == old(payments.rows) && eventStore.rows == old(eventStore.rows)
                && webhooks.aggregates == old(webhooks.aggregates)
      ensures stored.status == Pending ==>
                var done := CompletedRecord(stored, debitId, creditId, now, hasher);
                && payments.rows == ReplaceById(old(payments.rows), done)
                && FindByReference(payments.rows, stored.reference.value) == Some(done)
                && eventStore.rows == old(eventStore.rows) + AppendedRows(stored.id, CompletionEvents(stored, now), rowIds, now, codec, AsDeclaredType)
                && WebhookStepDone(done, secretKey, nonce, aead, json, now, old(webhooks.aggregates), webhooks.aggregates, r)
      ensures r.Success? ==> stored.status == Pending && r.value.paymentId == stored.id && r.value.status == "Completed"
    {
      var payment := new Payment.Load(stored);
      var completed := payment.MarkCompleted(debitId, creditId, now, hasher);
      if completed.Fail? {
        return Failure(completed.error);
      }
      var done := CompletedRecord(stored, debitId, creditId, now, hasher);
      assert payment.Record() == done;
      assert payment.events.pending == [] + CompletionEvents(stored, now) == CompletionEvents(stored, now);
      r := StoreCompletion(done, payment.events.pending, k, rowIds, webhookId, deliveryId, nonce, now, codec, aead, json);
    }

    /** Handle(cmd). The ledger entries' ids, the event rows' ids, the webhook aggregate's and
        delivery's ids, the nonce and the clock reading are parameters. */
    method Handle(cmd: CompletePaymentCommand, debitId: Guid, creditId: Guid, rowIds: seq<Guid>, webhookId: Guid,
                  deliveryId: Guid, nonce: string, now: Timestamp, codec: JsonCodec, hasher: TransactionHasher,
                  aead: Aead, json: WebhookJson)
      returns (r: Result<CompletePaymentResponse, Exception>)
      requires payments.Valid() && webhooks.Valid()
      requires debitId != EmptyGuid && creditId != EmptyGuid && |rowIds| == 2
      requires webhookId != EmptyGuid && deliveryId != EmptyGuid && !IsBlank(nonce)
      modifies payments, eventStore, webhooks
      ensures payments.Valid() && webhooks.Valid()
      // An unknown reference, or a payment that is not Pending: nothing is written.
      ensures FindByReference(old(payments.rows), cmd.reference).None? ==>
                && r == Failure(KeyNotFound("Payment not found: " + cmd.reference))
                && payments.rows == old(payments.rows) && eventStore.rows == old(eventStore.rows)
                && webhooks.aggregates == old(webhooks.aggregates)
      ensures FindByReference(old(payments.rows), cmd.reference).Some? ==>
                var p := FindByReference(old(payments.rows), cmd.reference).value;
                p.status != Pending ==>
                  && r == (if p.status == Completed then Success(CompletePaymentResponse(p.id, "Completed", p.completedAt.value))
                           else Failure(InvalidOperation("Cannot complete payment in " + StatusName(p.status) + " state")))
                  && payments.rows == old(payments.rows) && eventStore.rows == old(eventStore.rows)
                  && webhooks.aggregates == old(webhooks.aggregates)
      // A Pending payment is completed and stored and its events appended, whatever the webhook
      // set-up then does; the response reports it Completed at `now`.
      ensures FindByReference(old(payments.rows), cmd.reference).Some? ==>
                var p := FindByReference(old(payments.rows), cmd.reference).value;
                p.status == Pending ==>
                  var done := CompletedRecord(p, debitId, creditId, now, hasher);
                  && payments.rows == ReplaceById(old(payments.rows), done)
                  && eventStore.rows == old(eventStore.rows) + AppendedRows(p.id, CompletionEvents(p, now), rowIds, now, codec, AsDeclaredType)
                  && WebhookStepDone(done, secretKey, nonce, aead, json, now, old(webhooks.aggregates), webhooks.aggregates, r)
      // Whatever the path, a success reports the payment stored under the reference, Completed.
      ensures r.Success? ==>
                && r.value.status == "Completed"
                && FindByReference(payments.rows, cmd.reference).Some?
                && FindByReference(payments.rows, cmd.reference).value.id == r.value.paymentId
                && FindByReference(payments.rows, cmd.reference).value.status == Completed
    {
      var found := payments.GetByReference(cmd.reference);
      if found.None? {
        return Failure(KeyNotFound("Payment not found: " + cmd.reference));
      }
      var stored := found.value;
      var k :| 0 <= k < |payments.rows| && payments.rows[k] == stored;
      FindByReferenceIsUnique(payments.rows, k);
      if stored.status == Completed {
        return Success(CompletePaymentResponse(stored.id, StatusName(stored.status), stored.completedAt.value));
      }
      r := CompleteStored(stored, k, debitId, creditId, rowIds, webhookId, deliveryId, nonce, now, codec, hasher, aead, json);
    }
  }

  /** As written, the key is shorter than the 32 characters Encrypt requires: the webhook set-up
      throws an ArgumentException for every payment, after the payment was stored Completed. */
  lemma HardcodedKeyRefusesEveryPayload(p: PaymentRecord, nonce: string, aead: Aead, json: WebhookJson)
    requires WantsWebhook(p) && p.id != EmptyGuid && !IsBlank(nonce)
    ensures WebhookSetUp(p, HardcodedKey, nonce, aead, json).Fail?
    ensures WebhookSetUp(p, HardcodedKey, nonce, aead, json).error.Argument?
  {
    assert |HardcodedKey| == 15;
  }

  /** With a key of at least 32 ASCII characters and a sound cipher, the set-up encrypts any
      non-blank payload, and the stored envelope decrypts back to the payload under that key. */
  lemma ConfiguredKeyEncryptsPayload(p: PaymentRecord, key: string, nonce: string, aead: Aead, json: WebhookJson)
    requires WantsWebhook(p) && p.id != EmptyGuid && !IsBlank(nonce) && !IsBlank(p.webhookUrl.value)
    requires Sound(aead) && !IsBlank(key) && |key| >= 32 && AsciiKey(key[..32])
    requires !IsBlank(json.payload(NotificationOf(p)))
    requires forall e: EncryptedPayload {:trigger json.envelope(e)} :: !IsBlank(json.envelope(e))
    ensures WebhookSetUp(p, key, nonce, aead, json).Pass?
    ensures Decrypt(Encrypt(json.payload(NotificationOf(p)), key, nonce, aead).value, key, aead)
         == Success(json.payload(NotificationOf(p)))
  {
    var payload := json.payload(NotificationOf(p));
    DecryptInvertsEncrypt(payload, key, key, nonce, aead);
    assert !IsBlank(json.envelope(Encrypt(payload, key, nonce, aead).value));
  }
}
