/** LedgerEntry: one debit or one credit on one account, child entity of a Payment.
    Every field is written once, in the constructor, so the entry is a value. */
module LedgerEntries {
  import opened Primitives
  import opened Wrappers
  import opened Enums

  /** The fields the transaction hash is computed from, in the order they are formatted. */
  datatype HashInput = HashInput(paymentId: Guid, account: LedgerAccount, debit: Int32, credit: Int32, createdAt: Timestamp)

  /** SHA-256 over the UTF-8 of the formatted fields, as Base64: a function the model does not look inside. */
  type TransactionHasher = HashInput -> string

  datatype LedgerEntry = LedgerEntry(
    id: Guid,
    paymentId: Guid,
    account: LedgerAccount,
    debit: Int32,
    credit: Int32,
    createdAt: Timestamp,
    transactionHash: string)
  {
    /** What the constructor guarantees: a real payment id and exactly one positive side. */
    predicate Valid() {
      id != EmptyGuid && paymentId != EmptyGuid
      && ((debit > 0 && credit == 0) || (debit == 0 && credit > 0))
    }

    /** What the entry contributes to its account's balance: credit minus debit. */
    function Net(): int { credit - debit }
  }

  /** The constructor LedgerEntry(paymentId, account, debit, credit). The entry's own id
      (Guid.NewGuid) and its creation time (DateTime.UtcNow) are parameters. */
  function NewLedgerEntry(id: Guid, paymentId: Guid, account: LedgerAccount, debit: Int32, credit: Int32,
                          now: Timestamp, hasher: TransactionHasher): (r: Result<LedgerEntry, Exception>)
    requires id != EmptyGuid
    ensures paymentId == EmptyGuid ==> r == Failure(Argument("Payment ID required", ""))
    ensures paymentId != EmptyGuid && (debit < 0 || credit < 0) ==>
              r == Failure(Argument("Debit/Credit cannot be negative", ""))
    ensures paymentId != EmptyGuid && debit > 0 && credit > 0 ==>
              r == Failure(InvalidOperation("Cannot have both debit and credit"))
    ensures paymentId != EmptyGuid && debit == 0 && credit == 0 ==>
              r == Failure(InvalidOperation("Must have either debit or credit"))
    ensures r.Success? <==>
              paymentId != EmptyGuid && ((debit > 0 && credit == 0) || (debit == 0 && credit > 0))
    ensures r.Success? ==>
              && r.value.Valid()
              && r.value == LedgerEntry(id, paymentId, account, debit, credit, now, r.value.transactionHash)
              && r.value.transactionHash == hasher(HashInput(paymentId, account, debit, credit, now))
  {
    if paymentId == EmptyGuid then Failure(Argument("Payment ID required", ""))
    else if debit < 0 || credit < 0 then Failure(Argument("Debit/Credit cannot be negative", ""))
    else if debit > 0 && credit > 0 then Failure(InvalidOperation("Cannot have both debit and credit"))
    else if debit == 0 && credit == 0 then Failure(InvalidOperation("Must have either debit or credit"))
    else Success(LedgerEntry(id, paymentId, account, debit, credit, now, hasher(HashInput(paymentId, account, debit, credit, now))))
  }

  /** The hash depends only on (paymentId, account, debit, credit, createdAt): two entries built
      from the same values at the same instant carry the same hash, whatever their own ids. */
  lemma HashIsDeterministic(id1: Guid, id2: Guid, paymentId: Guid, account: LedgerAccount, debit: Int32, credit: Int32,
                            now: Timestamp, hasher: TransactionHasher)
    requires id1 != EmptyGuid && id2 != EmptyGuid
    requires NewLedgerEntry(id1, paymentId, account, debit, credit, now, hasher).Success?
    ensures NewLedgerEntry(id2, paymentId, account, debit, credit, now, hasher).Success?
    ensures NewLedgerEntry(id1, paymentId, account, debit, credit, now, hasher).value.transactionHash
         == NewLedgerEntry(id2, paymentId, account, debit, credit, now, hasher).value.transactionHash
  {
  }

  /** A positive amount A gives a valid debit entry (A, 0) and a valid credit entry (0, A)
      for any real payment id, and their contributions cancel. */
  lemma DebitAndCreditOfAmountAreValid(id1: Guid, id2: Guid, paymentId: Guid, a1: LedgerAccount, a2: LedgerAccount,
                                       amount: Int32, now: Timestamp, hasher: TransactionHasher)
    requires id1 != EmptyGuid && id2 != EmptyGuid && paymentId != EmptyGuid && amount > 0
    ensures var d := NewLedgerEntry(id1, paymentId, a1, amount, 0, now, hasher);
            var c := NewLedgerEntry(id2, paymentId, a2, 0, amount, now, hasher);
            d.Success? && c.Success? && d.value.Net() + c.value.Net() == 0
  {
  }
}
