/** ReconcilePaymentsHandler: counts the payments by status, totals the three ledger accounts over
    the Pending, Completed and Failed payments, and stores and reports a reconciliation snapshot. */
module ReconcilePaymentsHandlers {
  import opened Primitives
  import opened Enums
  import opened LedgerEntries
  import opened PaymentLedger
  import opened Payments
  import opened ReconciliationSnapshots
  import opened Repositories
  import opened Commands

  /** The sum of GetAccountBalance(account) over the payments. */
  function TotalBalance(ps: seq<PaymentRecord>, account: LedgerAccount): int
    decreases |ps|
  {
    if |ps| == 0 then 0
    else TotalBalance(ps[..|ps| - 1], account) + AccountBalance(ps[|ps| - 1].ledgerEntries, account)
  }

  /** Some payment has funds reserved: a Customer entry in its ledger. */
  predicate AnyReserved(ps: seq<PaymentRecord>) {
    exists i :: 0 <= i < |ps| && HasCustomerEntry(ps[i].ledgerEntries)
  }

  /** The payments the handler loads: the Pending ones, then the Completed, then the Failed. */
  function Loaded(rows: seq<PaymentRecord>): seq<PaymentRecord> {
    FilterByStatus(rows, Pending) + FilterByStatus(rows, Completed) + FilterByStatus(rows, Failed)
  }

  /** The snapshot of a table: the counts of the three statuses and their sum, and the account
      totals over the loaded payments. */
  function SnapshotOf(rows: seq<PaymentRecord>, id: Guid, now: Timestamp): ReconciliationSnapshot {
    var pending := |FilterByStatus(rows, Pending)|;
    var completed := |FilterByStatus(rows, Completed)|;
    var failed := |FilterByStatus(rows, Failed)|;
    var loaded := Loaded(rows);
    NewSnapshot(id, pending + completed + failed, pending, completed, failed,
                TotalBalance(loaded, Customer), TotalBalance(loaded, Clearing), TotalBalance(loaded, Merchant), now)
  }

  /** The response: the snapshot's figures, generated at its creation time. */
  function ReportOf(s: ReconciliationSnapshot): ReconciliationReportResponse {
    ReconciliationReportResponse(s.totalPayments, s.pendingPayments, s.completedPayments, s.failedPayments,
                                 s.customerBalance, s.clearingBalance, s.merchantBalance, s.isBalanced, s.createdAt)
  }

  /** A sequence has a payment with funds reserved exactly when its prefix or its last one has. */
  lemma AnyReservedOfSnoc(ps: seq<PaymentRecord>)
    requires |ps| > 0
    ensures AnyReserved(ps) <==> AnyReserved(ps[..|ps| - 1]) || HasCustomerEntry(ps[|ps| - 1].ledgerEntries)
  {
    var init := ps[..|ps| - 1];
    if AnyReserved(init) {
      var i :| 0 <= i < |init| && HasCustomerEntry(init[i].ledgerEntries);
      assert ps[i] == init[i];
    }
    if AnyReserved(ps) && !HasCustomerEntry(ps[|ps| - 1].ledgerEntries) {
      var i :| 0 <= i < |ps| && HasCustomerEntry(ps[i].ledgerEntries);
      assert init[i] == ps[i];
    }
  }

  /** Over valid payments the customer total is at most zero, and zero exactly when no payment
      has reserved funds. */
  lemma {:induction false} TotalCustomerBalanceSign(ps: seq<PaymentRecord>)
    requires forall i :: 0 <= i < |ps| ==> RecordValid(ps[i])
    ensures TotalBalance(ps, Customer) <= 0
    ensures TotalBalance(ps, Customer) == 0 <==> !AnyReserved(ps)
    decreases |ps|
  {
    if |ps| > 0 {
      var init := ps[..|ps| - 1];
      assert forall i :: 0 <= i < |init| ==> init[i] == ps[i];
      TotalCustomerBalanceSign(init);
      CustomerBalanceSign(ps[|ps| - 1].ledgerEntries);
      AnyReservedOfSnoc(ps);
    }
  }

  /** Over valid payments the three account totals add up to zero: every debit has its credit. */
  lemma {:induction false} TotalsNetToZero(ps: seq<PaymentRecord>)
    requires forall i :: 0 <= i < |ps| ==> RecordValid(ps[i])
    ensures TotalBalance(ps, Customer) + TotalBalance(ps, Clearing) + TotalBalance(ps, Merchant) == 0
    decreases |ps|
  {
    if |ps| > 0 {
      TotalsNetToZero(ps[..|ps| - 1]);
      AccountsPartitionNetBalance(ps[|ps| - 1].ledgerEntries);
    }
  }

  /** The as-written check customer - clearing - merchant == 0 holds exactly when no loaded
      payment has reserved funds, though the totals always net to zero. */
  lemma ReportIsBalancedOnlyWithoutReservations(ps: seq<PaymentRecord>)
    requires forall i :: 0 <= i < |ps| ==> RecordValid(ps[i])
    ensures TotalBalance(ps, Customer) - TotalBalance(ps, Clearing) - TotalBalance(ps, Merchant) == 2 * TotalBalance(ps, Customer)
    ensures TotalBalance(ps, Customer) - TotalBalance(ps, Clearing) - TotalBalance(ps, Merchant) == 0 <==> !AnyReserved(ps)
  {
    TotalsNetToZero(ps);
    TotalCustomerBalanceSign(ps);
  }

  /** Every payment has one of the four statuses, so the four status queries split the table. */
  lemma {:induction false} StatusCountsPartition(rows: seq<PaymentRecord>)
    ensures |FilterByStatus(rows, Pending)| + |FilterByStatus(rows, Completed)| + |FilterByStatus(rows, Failed)|
            + |FilterByStatus(rows, Cancelled)| == |rows|
    decreases |rows|
  {
    if |rows| > 0 {
      StatusCountsPartition(rows[..|rows| - 1]);
    }
  }

  /** What the snapshot of a valid table reports: every payment but the Cancelled ones is counted,
      the as-written check fails as soon as one loaded payment has reserved funds, and the account
      totals net to zero. */
  lemma SnapshotOfValidTable(rows: seq<PaymentRecord>, id: Guid, now: Timestamp)
    requires PaymentRowsValid(rows)
    ensures SnapshotOf(rows, id, now).totalPayments == |rows| - |FilterByStatus(rows, Cancelled)|
    ensures SnapshotOf(rows, id, now).isBalanced <==> !AnyReserved(Loaded(rows))
    ensures var s := SnapshotOf(rows, id, now);
            s.customerBalance + s.clearingBalance + s.merchantBalance == 0
  {
    StatusCountsPartition(rows);
    LoadedRecordsValid(rows);
    ReportIsBalancedOnlyWithoutReservations(Loaded(rows));
  }

  /** The loaded payments are rows of the table, hence valid. */
  lemma LoadedRecordsValid(rows: seq<PaymentRecord>)
    requires PaymentRowsValid(rows)
    ensures forall i :: 0 <= i < |Loaded(rows)| ==> RecordValid(Loaded(rows)[i])
  {
    var loaded := Loaded(rows);
    forall i | 0 <= i < |loaded| ensures RecordValid(loaded[i]) {
      assert loaded[i] in rows;
    }
  }

  /** The foreach loop over the loaded payments, adding up each one's account balances. */
  method SumBalances(ps: seq<PaymentRecord>) returns (customer: int, clearing: int, merchant: int)
    ensures customer == TotalBalance(ps, Customer)
    ensures clearing == TotalBalance(ps, Clearing)
    ensures merchant == TotalBalance(ps, Merchant)
  {
    customer, clearing, merchant := 0, 0, 0;
    for i := 0 to |ps|
      invariant customer == TotalBalance(ps[..i], Customer)
      invariant clearing == TotalBalance(ps[..i], Clearing)
      invariant merchant == TotalBalance(ps[..i], Merchant)
    {
      assert ps[..i + 1][..i] == ps[..i];
      customer := customer + AccountBalance(ps[i].ledgerEntries, Customer);
      clearing := clearing + AccountBalance(ps[i].ledgerEntries, Clearing);
      merchant := merchant + AccountBalance(ps[i].ledgerEntries, Merchant);
    }
    assert ps[..|ps|] == ps;
  }

  class ReconcilePaymentsHandler {
    const payments: PaymentRepository
    const reconciliations: ReconciliationRepository

    constructor (payments: PaymentRepository, reconciliations: ReconciliationRepository)
      ensures this.payments == payments && this.reconciliations == reconciliations
    {
      this.payments, this.reconciliations := payments, reconciliations;
    }

    /** Handle(cmd). The snapshot's id and the clock reading are parameters. */
    method Handle(snapshotId: Guid, now: Timestamp) returns (r: ReconciliationReportResponse)
      requires payments.Valid()
      modifies reconciliations
      ensures reconciliations.snapshots == old(reconciliations.snapshots) + [SnapshotOf(payments.rows, snapshotId, now)]
      ensures r == ReportOf(SnapshotOf(payments.rows, snapshotId, now))
      // Only Cancelled payments are left out of the count.
      ensures r.totalPayments == |payments.rows| - |FilterByStatus(payments.rows, Cancelled)|
      // The reported check fails as soon as one loaded payment has reserved funds ...
      ensures r.isBalanced <==> !AnyReserved(Loaded(payments.rows))
      // ... while the double-entry invariant the check means to test always holds.
      ensures r.customerBalance + r.clearingBalance + r.merchantBalance == 0
    {
      var pendingPayments := payments.GetByStatus(Pending);
      var completedPayments := payments.GetByStatus(Completed);
      var failedPayments := payments.GetByStatus(Failed);
      var pendingCount, completedCount, failedCount := |pendingPayments|, |completedPayments|, |failedPayments|;

      var customerBalance, clearingBalance, merchantBalance := SumBalances(pendingPayments + completedPayments + failedPayments);
      var snapshot := NewSnapshot(snapshotId, pendingCount + completedCount + failedCount, pendingCount, completedCount,
                                  failedCount, customerBalance, clearingBalance, merchantBalance, now);
      assert snapshot == SnapshotOf(payments.rows, snapshotId, now);
      reconciliations.AddSnapshot(snapshot);
      SnapshotOfValidTable(payments.rows, snapshotId, now);
      return ReportOf(snapshot);
    }
  }
}
