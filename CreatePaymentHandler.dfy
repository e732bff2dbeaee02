/** CreatePaymentHandler: creates a payment for a new reference, reserves its funds, stores it
    and appends its domain events; a reference already stored returns the stored payment. */
module CreatePaymentHandlers {
  import opened Primitives
  import opened Wrappers
  import opened Enums
  import opened MerchantIds
  import opened ValueObjects
  import opened DomainEvents
  import opened LedgerEntries
  import opened PaymentLedger
  import opened Payments
  import opened EventStore
  import opened Repositories
  import opened Commands
  import opened Validators

  /** The value objects built from the command, in the order the handler builds them; the first
      constructor that throws decides the exception. */
  function BuildArguments(cmd: CreatePaymentCommand): (r: Result<(MerchantId, Money, PaymentReference), Exception>)
    ensures r.Success? <==>
              cmd.merchantId != EmptyGuid && cmd.amount >= 0 && ValidCurrency(cmd.currency)
              && !IsBlank(cmd.reference) && |cmd.reference| <= 50
    ensures cmd.merchantId == EmptyGuid ==> r == Failure(InvalidOperation("Merchant ID cannot be empty"))
    ensures cmd.merchantId != EmptyGuid && cmd.amount < 0 ==> r == Failure(InvalidOperation("Amount cannot be negative"))
    ensures r.Success? ==>
              && r.value.0 == MerchantId(cmd.merchantId) && r.value.0.Valid()
              && r.value.1 == Money(cmd.amount, cmd.currency) && r.value.1.Valid()
              && r.value.2 == PaymentReference(cmd.reference) && r.value.2.Valid()
  {
    var merchantId :- NewMerchantId(cmd.merchantId);
    var money :- NewMoney(cmd.amount, cmd.currency);
    var reference :- NewPaymentReference(cmd.reference);
    Success((merchantId, money, reference))
  }

  /** The payment the handler stores for a new reference: built from the command, Pending, created
      at `now`, with the customer debit and clearing credit of its amount. A zero amount passes
      the value objects and is refused by the Payment constructor. */
  function NewPaymentRecord(cmd: CreatePaymentCommand, paymentId: Guid, debitId: Guid, creditId: Guid, now: Timestamp,
                            hasher: TransactionHasher): (r: Result<PaymentRecord, Exception>)
    requires paymentId != EmptyGuid && debitId != EmptyGuid && creditId != EmptyGuid
    ensures r.Success? <==>
              cmd.merchantId != EmptyGuid && cmd.amount > 0 && ValidCurrency(cmd.currency)
              && !IsBlank(cmd.reference) && |cmd.reference| <= 50
    ensures BuildArguments(cmd).Failure? ==> r == Failure(BuildArguments(cmd).error)
    ensures BuildArguments(cmd).Success? && cmd.amount == 0 ==> r == Failure(InvalidOperation("Amount must be positive"))
    ensures r.Success? ==>
              && RecordValid(r.value)
              && r.value.id == paymentId && r.value.reference.value == cmd.reference
              && r.value.status == Pending && r.value.createdAt == now && r.value.webhookUrl == cmd.webhookUrl
              && r.value.ledgerEntries == ReserveEntries(paymentId, cmd.amount, debitId, creditId, now, hasher)
  {
    var (merchantId, money, reference) :- BuildArguments(cmd);
    if !money.IsPositive() then Failure(InvalidOperation("Amount must be positive"))
    else
      var entries := ReserveEntries(paymentId, cmd.amount, debitId, creditId, now, hasher);
      PairBalances(entries[0], entries[1], Customer);
      NetBalanceAppend([], entries);
      PairBalances(entries[0], entries[1], Clearing);
      Success(PaymentRecord(paymentId, merchantId, money, reference, Pending, now, None, cmd.webhookUrl, 0, None, entries))
  }

  /** The events a new payment has raised when it is stored: PaymentCreated, then FundsReserved. */
  function CreationEvents(cmd: CreatePaymentCommand, paymentId: Guid, now: Timestamp): seq<DomainEvent> {
    [PaymentCreatedEvent(paymentId, paymentId, cmd.merchantId, cmd.amount, Some(cmd.currency), Some(cmd.reference), now),
     FundsReservedEvent(paymentId, paymentId, cmd.amount, now)]
  }

  /** A stored payment as the handler reports it. */
  function ResponseOf(p: PaymentRecord): CreatePaymentResponse {
    CreatePaymentResponse(p.id, StatusName(p.status), p.reference.value, p.createdAt)
  }

  class CreatePaymentHandler {
    const payments: PaymentRepository
    const eventStore: EfEventStore

    constructor (payments: PaymentRepository, eventStore: EfEventStore)
      ensures this.payments == payments && this.eventStore == eventStore
    {
      this.payments, this.eventStore := payments, eventStore;
    }

    /** Handle(cmd). The new payment's id, its two ledger entries' ids, the two event rows' ids and
        the clock reading are parameters. */
    method Handle(cmd: CreatePaymentCommand, paymentId: Guid, debitId: Guid, creditId: Guid, rowIds: seq<Guid>,
                  now: Timestamp, codec: JsonCodec, hasher: TransactionHasher)
      returns (r: Result<CreatePaymentResponse, Exception>)
      requires payments.Valid()
      requires paymentId != EmptyGuid && debitId != EmptyGuid && creditId != EmptyGuid && |rowIds| == 2
      modifies payments, eventStore
      ensures payments.Valid()
      // Idempotency: a reference already stored gives back the stored payment and changes nothing.
      ensures FindByReference(old(payments.rows), cmd.reference).Some? ==>
                && r == Success(ResponseOf(FindByReference(old(payments.rows), cmd.reference).value))
                && payments.rows == old(payments.rows) && eventStore.rows == old(eventStore.rows)
      // A new reference whose command a constructor refuses: that exception, nothing stored.
      ensures FindByReference(old(payments.rows), cmd.reference).None? ==>
                var created := NewPaymentRecord(cmd, paymentId, debitId, creditId, now, hasher);
                && (created.Failure? ==>
                      r == Failure(created.error)
                      && payments.rows == old(payments.rows) && eventStore.rows == old(eventStore.rows))
                // The new id already stored: SaveChanges fails and no event is appended.
                && (created.Success? && (exists i :: 0 <= i < |old(payments.rows)| && old(payments.rows)[i].id == paymentId) ==>
                      r == Failure(DbUpdate(DbUpdateMessage))
                      && payments.rows == old(payments.rows) && eventStore.rows == old(eventStore.rows))
                // Otherwise the reserved payment is stored and its two events appended in order.
                && (created.Success? && (forall i :: 0 <= i < |old(payments.rows)| ==> old(payments.rows)[i].id != paymentId) ==>
                      && r == Success(CreatePaymentResponse(paymentId, "Pending", cmd.reference, now))
                      && payments.rows == old(payments.rows) + [created.value]
                      && eventStore.rows == old(eventStore.rows) + AppendedRows(paymentId, CreationEvents(cmd, paymentId, now), rowIds, now, codec, AsDeclaredType))
      // Whatever the path, a success reports the one stored payment that carries the reference.
      ensures r.Success? ==>
                && r.value.reference == cmd.reference
                && FindByReference(payments.rows, cmd.reference).Some?
                && FindByReference(payments.rows, cmd.reference).value.id == r.value.paymentId
    {
      var existing := payments.GetByReference(cmd.reference);
      if existing.Some? {
        return Success(ResponseOf(existing.value));
      }
      var built := BuildArguments(cmd);
      if built.Failure? {
        return Failure(built.error);
      }
      var (merchantId, money, reference) := built.value;
      var created := Payment.Create(paymentId, merchantId, Some(money), reference, cmd.webhookUrl, now);
      if created.Failure? {
        return Failure(created.error);
      }
      var payment := created.value;
      var reserved := payment.ReserveFunds(debitId, creditId, now, hasher);
      assert [] + ReserveEntries(paymentId, cmd.amount, debitId, creditId, now, hasher)
          == ReserveEntries(paymentId, cmd.amount, debitId, creditId, now, hasher);
      assert payment.Record() == NewPaymentRecord(cmd, paymentId, debitId, creditId, now, hasher).value;
      var added := payments.Add(payment.Record());
      if added.Fail? {
        return Failure(added.error);
      }
      FindByReferenceIsUnique(payments.rows, |payments.rows| - 1);

      AppendEach(eventStore, payment.id, payment.events.pending, rowIds, now, codec);
      return Success(CreatePaymentResponse(payment.id, StatusName(payment.status), payment.reference.value, payment.createdAt));
    }
  }

  /** A command the validator accepts passes every constructor on the way to a stored payment. */
  lemma ValidatedCommandCreatesPayment(cmd: CreatePaymentCommand, isAbsoluteUri: string -> bool, paymentId: Guid,
                                       debitId: Guid, creditId: Guid, now: Timestamp, hasher: TransactionHasher)
    requires CreatePaymentErrors(cmd, isAbsoluteUri) == []
    requires paymentId != EmptyGuid && debitId != EmptyGuid && creditId != EmptyGuid
    ensures NewPaymentRecord(cmd, paymentId, debitId, creditId, now, hasher).Success?
  {
  }

  /** A newly created payment of amount A has the customer at -A, clearing at +A and the merchant
      at 0; its net balance is zero, and the as-written balance check reports it unbalanced. */
  lemma NewPaymentBalances(cmd: CreatePaymentCommand, paymentId: Guid, debitId: Guid, creditId: Guid, now: Timestamp,
                           hasher: TransactionHasher)
    requires paymentId != EmptyGuid && debitId != EmptyGuid && creditId != EmptyGuid
    requires NewPaymentRecord(cmd, paymentId, debitId, creditId, now, hasher).Success?
    ensures var entries := NewPaymentRecord(cmd, paymentId, debitId, creditId, now, hasher).value.ledgerEntries;
            && AccountBalance(entries, Customer) == -(cmd.amount as int)
            && AccountBalance(entries, Clearing) == cmd.amount as int
            && AccountBalance(entries, Merchant) == 0
            && PaymentLedger.IsLedgerBalancedIntended(entries)
            && !PaymentLedger.IsLedgerBalanced(entries)
  {
    var entries := ReserveEntries(paymentId, cmd.amount, debitId, creditId, now, hasher);
    PairBalances(entries[0], entries[1], Customer);
    PairBalances(entries[0], entries[1], Clearing);
    PairBalances(entries[0], entries[1], Merchant);
  }
}
