/** The Payment aggregate root: a payment's lifecycle (Pending, then Completed or Failed),
    its double-entry ledger and the domain events it raises. */
module Payments {
  import opened Primitives
  import opened Wrappers
  import opened Enums
  import opened MerchantIds
  import opened ValueObjects
  import opened DomainEvents
  import opened AggregateRoot
  import opened LedgerEntries
  import opened PaymentLedger

  /** The entries ReserveFunds appends: the customer is debited and clearing credited with the amount. */
  function ReserveEntries(paymentId: Guid, amount: Int32, debitId: Guid, creditId: Guid, now: Timestamp,
                          hasher: TransactionHasher): seq<LedgerEntry>
  {
    [LedgerEntry(debitId, paymentId, Customer, amount, 0, now, hasher(HashInput(paymentId, Customer, amount, 0, now))),
     LedgerEntry(creditId, paymentId, Clearing, 0, amount, now, hasher(HashInput(paymentId, Clearing, 0, amount, now)))]
  }

  /** The entries MarkCompleted appends: clearing is debited and the merchant credited with the amount. */
  function SettleEntries(paymentId: Guid, amount: Int32, debitId: Guid, creditId: Guid, now: Timestamp,
                         hasher: TransactionHasher): seq<LedgerEntry>
  {
    [LedgerEntry(debitId, paymentId, Clearing, amount, 0, now, hasher(HashInput(paymentId, Clearing, amount, 0, now))),
     LedgerEntry(creditId, paymentId, Merchant, 0, amount, now, hasher(HashInput(paymentId, Merchant, 0, amount, now)))]
  }

  /** A payment as it is persisted: every property of the aggregate except its pending events,
      which are not stored. */
  datatype PaymentRecord = PaymentRecord(
    id: Guid,
    merchantId: MerchantId,
    amount: Money,
    reference: PaymentReference,
    status: PaymentStatus,
    createdAt: Timestamp,
    completedAt: Option<Timestamp>,
    webhookUrl: Option<string>,
    retryCount: int,
    failureReason: Option<string>,
    ledgerEntries: seq<LedgerEntry>)

  /** Every ledger entry of the payment is a valid entry for it, of its amount, on one side. */
  predicate EntriesBelongTo(entries: seq<LedgerEntry>, paymentId: Guid, amount: Int32) {
    forall i :: 0 <= i < |entries| ==>
      entries[i].Valid() && entries[i].paymentId == paymentId
      && (entries[i].debit == amount || entries[i].credit == amount)
  }

  /** What every payment satisfies from construction on, whatever operations it went through. */
  predicate RecordValid(p: PaymentRecord) {
    && p.id != EmptyGuid
    && p.merchantId.Valid() && p.amount.Valid() && p.amount.IsPositive() && p.reference.Valid()
    && 0 <= p.retryCount <= 5
    && (p.completedAt.Some? <==> p.status == Completed)
    && (p.failureReason.Some? <==> p.status == Failed)
    && (p.failureReason.Some? ==> !IsBlank(p.failureReason.value))
    && EntriesBelongTo(p.ledgerEntries, p.id, p.amount.amount)
    && CustomerEntriesAreDebits(p.ledgerEntries)
    && NetBalance(p.ledgerEntries) == 0
  }

  class Payment {
    const id: Guid
    const merchantId: MerchantId
    const amount: Money
    const reference: PaymentReference
    const createdAt: Timestamp
    const webhookUrl: Option<string>
    /** The aggregate root's pending domain events. */
    const events: EventBuffer
    var status: PaymentStatus
    var completedAt: Option<Timestamp>
    var retryCount: int
    var failureReason: Option<string>
    /** _ledgerEntries: only ever appended to. */
    var ledgerEntries: seq<LedgerEntry>

    /** The persisted state of the payment. */
    function Record(): PaymentRecord
      reads this
    {
      PaymentRecord(id, merchantId, amount, reference, status, createdAt, completedAt, webhookUrl,
                    retryCount, failureReason, ledgerEntries)
    }

    ghost predicate Valid()
      reads this
    {
      RecordValid(Record())
    }

    /** Materialisation of a stored payment: its persisted state, and no pending events. */
    constructor Load(p: PaymentRecord)
      requires RecordValid(p)
      ensures Record() == p && Valid()
      ensures fresh(events) && events.pending == []
    {
      id, merchantId, amount, reference, createdAt, webhookUrl := p.id, p.merchantId, p.amount, p.reference, p.createdAt, p.webhookUrl;
      status, completedAt, retryCount, failureReason, ledgerEntries := p.status, p.completedAt, p.retryCount, p.failureReason, p.ledgerEntries;
      events := new EventBuffer();
    }

    /** The field assignments of the public constructor, once its checks have passed. */
    constructor Init(id: Guid, merchantId: MerchantId, amount: Money, reference: PaymentReference,
                     webhookUrl: Option<string>, now: Timestamp)
      ensures Record() == PaymentRecord(id, merchantId, amount, reference, Pending, now, None, webhookUrl, 0, None, [])
      ensures fresh(events) && events.pending == []
    {
      this.id, this.merchantId, this.amount, this.reference, this.createdAt, this.webhookUrl := id, merchantId, amount, reference, now, webhookUrl;
      status, completedAt, retryCount, failureReason, ledgerEntries := Pending, None, 0, None, [];
      events := new EventBuffer();
    }

    /** The public constructor Payment(merchantId, amount, reference, webhookUrl). A null amount
        is None; the new id (Guid.NewGuid) and the creation time (DateTime.UtcNow) are parameters.
        A new payment is Pending, has no ledger entries yet, and has raised PaymentCreated then
        FundsReserved. */
    static method Create(id: Guid, merchantId: MerchantId, amount: Option<Money>, reference: PaymentReference,
                         webhookUrl: Option<string>, now: Timestamp) returns (r: Result<Payment, Exception>)
      requires id != EmptyGuid && merchantId.Valid() && reference.Valid()
      requires amount.Some? ==> amount.value.Valid()
      ensures amount.None? ==> r == Failure(ArgumentNull("amount"))
      ensures amount.Some? && !amount.value.IsPositive() ==> r == Failure(InvalidOperation("Amount must be positive"))
      ensures r.Success? <==> amount.Some? && amount.value.IsPositive()
      ensures r.Success? ==>
                && fresh(r.value) && fresh(r.value.events)
                && r.value.Record() == PaymentRecord(id, merchantId, amount.value, reference, Pending, now, None, webhookUrl, 0, None, [])
                && r.value.Valid()
                && r.value.events.pending ==
                     [PaymentCreatedEvent(id, id, merchantId.value, amount.value.amount, Some(amount.value.currency), Some(reference.value), now),
                      FundsReservedEvent(id, id, amount.value.amount, now)]
    {
      if amount.None? {
        return Failure(ArgumentNull("amount"));
      }
      var money := amount.value;
      if !money.IsPositive() {
        return Failure(InvalidOperation("Amount must be positive"));
      }
      var p := new Payment.Init(id, merchantId, money, reference, webhookUrl, now);
      p.events.Raise(PaymentCreatedEvent(id, id, merchantId.value, money.amount, Some(money.currency), Some(reference.value), now));
      p.events.Raise(FundsReservedEvent(id, id, money.amount, now));
      return Success(p);
    }

    /** ReserveFunds: only a Pending payment may reserve; it appends the customer debit and the
        clearing credit of the amount, and changes neither the status nor the events. A second
        call while Pending is not refused. The entries' ids and creation time are parameters. */
    method ReserveFunds(debitId: Guid, creditId: Guid, now: Timestamp, hasher: TransactionHasher) returns (r: Outcome<Exception>)
      requires Valid() && debitId != EmptyGuid && creditId != EmptyGuid
      modifies this
      ensures Valid()
      ensures old(status) != Pending ==>
                r == Fail(InvalidOperation("Cannot reserve funds for non-pending payment")) && Record() == old(Record())
      ensures old(status) == Pending ==>
                && r == Pass
                && Record() == old(Record()).(ledgerEntries :=
                     old(ledgerEntries) + ReserveEntries(id, amount.amount, debitId, creditId, now, hasher))
    {
      if status != Pending {
        return Fail(InvalidOperation("Cannot reserve funds for non-pending payment"));
      }
      var debit := NewLedgerEntry(debitId, id, Customer, amount.amount, 0, now, hasher);
      var credit := NewLedgerEntry(creditId, id, Clearing, 0, amount.amount, now, hasher);
      AppendPair(debit.value, credit.value);
      return Pass;
    }

    /** MarkCompleted: only a Pending payment may complete. It becomes Completed at `now`,
        appends the clearing debit and merchant credit of the amount, and raises PaymentCompleted
        then FundsSettled. */
    method MarkCompleted(debitId: Guid, creditId: Guid, now: Timestamp, hasher: TransactionHasher) returns (r: Outcome<Exception>)
      requires Valid() && debitId != EmptyGuid && creditId != EmptyGuid
      modifies this, events
      ensures Valid()
      ensures old(status) != Pending ==>
                && r == Fail(InvalidOperation("Cannot complete payment in " + StatusName(old(status)) + " state"))
                && Record() == old(Record()) && events.pending == old(events.pending)
      ensures old(status) == Pending ==>
                && r == Pass
                && Record() == old(Record()).(status := Completed, completedAt := Some(now),
                     ledgerEntries := old(ledgerEntries) + SettleEntries(id, amount.amount, debitId, creditId, now, hasher))
                && events.pending == old(events.pending) +
                     [PaymentCompletedEvent(id, id, now), FundsSettledEvent(id, id, amount.amount, now)]
    {
      if status != Pending {
        return Fail(InvalidOperation("Cannot complete payment in " + StatusName(status) + " state"));
      }
      status := Completed;
      completedAt := Some(now);
      var debit := NewLedgerEntry(debitId, id, Clearing, amount.amount, 0, now, hasher);
      var credit := NewLedgerEntry(creditId, id, Merchant, 0, amount.amount, now, hasher);
      AppendPair(debit.value, credit.value);
      events.Raise(PaymentCompletedEvent(id, id, completedAt.value));
      events.Raise(FundsSettledEvent(id, id, amount.amount, completedAt.value));
      return Pass;
    }

    /** MarkFailed: the status is checked before the reason. A Completed or Failed payment, or a
        blank reason, is refused with nothing changed; otherwise (Pending or Cancelled) the payment
        becomes Failed with that reason and raises PaymentFailed. The ledger is not touched. */
    method MarkFailed(reason: string, now: Timestamp) returns (r: Outcome<Exception>)
      requires Valid()
      modifies this, events
      ensures Valid()
      ensures old(status) in {Completed, Failed} ==>
                r == Fail(InvalidOperation("Cannot fail a settled or already failed payment"))
      ensures old(status) !in {Completed, Failed} && IsBlank(reason) ==>
                r == Fail(Argument("Failure reason required", "reason"))
      ensures r.Fail? ==> Record() == old(Record()) && events.pending == old(events.pending)
      ensures r.Pass? <==> old(status) !in {Completed, Failed} && !IsBlank(reason)
      ensures r.Pass? ==>
                && Record() == old(Record()).(status := Failed, failureReason := Some(reason))
                && events.pending == old(events.pending) + [PaymentFailedEvent(id, id, Some(reason), now)]
    {
      if status == Completed || status == Failed {
        return Fail(InvalidOperation("Cannot fail a settled or already failed payment"));
      }
      if IsBlank(reason) {
        return Fail(Argument("Failure reason required", "reason"));
      }
      status := Failed;
      failureReason := Some(reason);
      events.Raise(PaymentFailedEvent(id, id, Some(reason), now));
      return Pass;
    }

    /** IncrementRetry: refused once five retries have been counted, so RetryCount stays in 0..5. */
    method IncrementRetry() returns (r: Outcome<Exception>)
      requires Valid()
      modifies this
      ensures Valid()
      ensures old(retryCount) >= 5 ==> r == Fail(InvalidOperation("Max retries exceeded")) && Record() == old(Record())
      ensures old(retryCount) < 5 ==> r == Pass && Record() == old(Record()).(retryCount := old(retryCount) + 1)
    {
      if retryCount >= 5 {
        return Fail(InvalidOperation("Max retries exceeded"));
      }
      retryCount := retryCount + 1;
      return Pass;
    }

    /** GetAccountBalance(account). On any payment the customer balance is at most zero, and zero
        only until funds are reserved. */
    function GetAccountBalance(account: LedgerAccount): (r: int)
      reads this
      requires Valid()
      ensures r == AccountBalance(ledgerEntries, account)
      ensures account == Customer ==> r <= 0 && (r == 0 <==> !HasCustomerEntry(ledgerEntries))
    {
      CustomerBalanceSign(ledgerEntries);
      AccountBalance(ledgerEntries, account)
    }

    /** IsLedgerBalanced(), as written: while the customer balance is above int.MinValue, true
        exactly while no funds have been reserved. */
    function IsLedgerBalanced(): (r: bool)
      reads this
      requires Valid()
      ensures AccountBalance(ledgerEntries, Customer) > Int32Min ==> (r <==> !HasCustomerEntry(ledgerEntries))
    {
      IsLedgerBalancedMeansNoCustomerEntry(ledgerEntries);
      PaymentLedger.IsLedgerBalanced(ledgerEntries)
    }

    /** The intended balance check: customer + clearing + merchant == 0. It holds on every payment. */
    function IsLedgerBalancedIntended(): (r: bool)
      reads this
      requires Valid()
      ensures r
    {
      IntendedCheckIsNetBalance(ledgerEntries);
      PaymentLedger.IsLedgerBalancedIntended(ledgerEntries)
    }

    /** Appends one debit and one credit of the payment's amount, keeping the ledger invariants. */
    method AppendPair(debit: LedgerEntry, credit: LedgerEntry)
      requires Valid()
      requires debit.Valid() && debit.paymentId == id && debit.debit == amount.amount && debit.credit == 0
      requires credit.Valid() && credit.paymentId == id && credit.credit == amount.amount && credit.debit == 0
      requires credit.account != Customer
      modifies this
      ensures Record() == old(Record()).(ledgerEntries := old(ledgerEntries) + [debit, credit])
      ensures Valid()
    {
      NetBalanceAppend(ledgerEntries, [debit, credit]);
      PairBalances(debit, credit, Customer);
      ledgerEntries := ledgerEntries + [debit, credit];
    }
  }

  /** Reserving and then settling a payment of amount A leaves the customer at -A, clearing at 0
      and the merchant at +A. */
  lemma ReserveThenSettleBalances(paymentId: Guid, amount: Int32, ids: seq<Guid>, now1: Timestamp, now2: Timestamp,
                                  hasher: TransactionHasher)
    requires |ids| == 4
    ensures var entries := ReserveEntries(paymentId, amount, ids[0], ids[1], now1, hasher)
                         + SettleEntries(paymentId, amount, ids[2], ids[3], now2, hasher);
            && AccountBalance(entries, Customer) == -(amount as int)
            && AccountBalance(entries, Clearing) == 0
            && AccountBalance(entries, Merchant) == amount as int
  {
    var reserve := ReserveEntries(paymentId, amount, ids[0], ids[1], now1, hasher);
    var settle := SettleEntries(paymentId, amount, ids[2], ids[3], now2, hasher);
    PairBalances(reserve[0], reserve[1], Customer);
    PairBalances(reserve[0], reserve[1], Clearing);
    PairBalances(reserve[0], reserve[1], Merchant);
    PairBalances(settle[0], settle[1], Customer);
    PairBalances(settle[0], settle[1], Clearing);
    PairBalances(settle[0], settle[1], Merchant);
    AccountBalanceAppend(reserve, settle, Customer);
    AccountBalanceAppend(reserve, settle, Clearing);
    AccountBalanceAppend(reserve, settle, Merchant);
  }

  /** The as-written check is -2A, wrapped to 32 bits, both after reserving and after settling, so
      it reports an imbalance on every ledger the handlers produce; the intended check holds on both. */
  lemma IsLedgerBalancedFailsAfterReserve(paymentId: Guid, amount: Int32, ids: seq<Guid>, now1: Timestamp, now2: Timestamp,
                                          hasher: TransactionHasher)
    requires |ids| == 4 && amount > 0
    ensures var reserved := ReserveEntries(paymentId, amount, ids[0], ids[1], now1, hasher);
            var settled := reserved + SettleEntries(paymentId, amount, ids[2], ids[3], now2, hasher);
            && LedgerCheckValue(reserved) == Wrap32(-2 * amount) && !PaymentLedger.IsLedgerBalanced(reserved)
            && LedgerCheckValue(settled) == Wrap32(-2 * amount) && !PaymentLedger.IsLedgerBalanced(settled)
            && (amount <= 0x4000_0000 ==> LedgerCheckValue(reserved) == -2 * amount)
            && PaymentLedger.IsLedgerBalancedIntended(reserved) && PaymentLedger.IsLedgerBalancedIntended(settled)
  {
    var reserve := ReserveEntries(paymentId, amount, ids[0], ids[1], now1, hasher);
    PairBalances(reserve[0], reserve[1], Customer);
    PairBalances(reserve[0], reserve[1], Clearing);
    PairBalances(reserve[0], reserve[1], Merchant);
    ReserveThenSettleBalances(paymentId, amount, ids, now1, now2, hasher);
  }
  /** The entries of consecutive ReserveFunds calls on one payment, the i-th call using entry ids
      ids[2i] and ids[2i + 1] at time times[i]. */
  function Reservations(paymentId: Guid, amount: Int32, ids: seq<Guid>, times: seq<Timestamp>,
                        hasher: TransactionHasher): seq<LedgerEntry>
    requires |ids| == 2 * |times|
    decreases |times|
  {
    if |times| == 0 then []
    else
      var k := |times| - 1;
      Reservations(paymentId, amount, ids[..2 * k], times[..k], hasher)
        + ReserveEntries(paymentId, amount, ids[2 * k], ids[2 * k + 1], times[k], hasher)
  }

  /** k reservations of A put k * A on Clearing and take k * A from Customer. */
  lemma {:induction false} ReservationsBalances(paymentId: Guid, amount: Int32, ids: seq<Guid>, times: seq<Timestamp>,
                                                hasher: TransactionHasher)
    requires |ids| == 2 * |times|
    ensures AccountBalance(Reservations(paymentId, amount, ids, times, hasher), Clearing) == |times| * amount
    ensures AccountBalance(Reservations(paymentId, amount, ids, times, hasher), Customer) == -(|times| * amount)
    decreases |times|
  {
    if |times| > 0 {
      var k := |times| - 1;
      var earlier := Reservations(paymentId, amount, ids[..2 * k], times[..k], hasher);
      var last := ReserveEntries(paymentId, amount, ids[2 * k], ids[2 * k + 1], times[k], hasher);
      ReservationsBalances(paymentId, amount, ids[..2 * k], times[..k], hasher);
      AccountBalanceAppend(earlier, last, Clearing);
      AccountBalanceAppend(earlier, last, Customer);
      PairBalances(last[0], last[1], Clearing);
      PairBalances(last[0], last[1], Customer);
    }
  }

  /** ReserveFunds may run again while the payment is Pending. Once k reservations of A with
      k * A >= 2^31 open the ledger, the running sum of its Clearing entries has passed
      int.MaxValue, so the checked Sum in GetAccountBalance(Clearing) throws OverflowException,
      whatever is appended afterwards. */
  lemma ReservingRepeatedlyOverflowsClearing(paymentId: Guid, amount: Int32, ids: seq<Guid>, times: seq<Timestamp>,
                                             hasher: TransactionHasher, rest: seq<LedgerEntry>)
    requires |ids| == 2 * |times| && |times| * amount > Int32Max
    ensures var reserved := Reservations(paymentId, amount, ids, times, hasher);
            && AccountBalance((reserved + rest)[..|reserved|], Clearing) > Int32Max
            && AccountBalance((reserved + rest)[..|reserved|], Customer) <= Int32Min
  {
    var reserved := Reservations(paymentId, amount, ids, times, hasher);
    ReservationsBalances(paymentId, amount, ids, times, hasher);
    assert (reserved + rest)[..|reserved|] == reserved;
  }
}
