/** ReconciliationSnapshot: a point-in-time record of payment counts and account totals,
    with the outcome of the balance check. Written once, in the constructor. */
module ReconciliationSnapshots {
  import opened Primitives

  /** The balances are C# decimals; every value summed into them is an int, so they are
      modelled as integers. */
  datatype ReconciliationSnapshot = ReconciliationSnapshot(
    id: Guid,
    totalPayments: int,
    pendingPayments: int,
    completedPayments: int,
    failedPayments: int,
    customerBalance: int,
    clearingBalance: int,
    merchantBalance: int,
    isBalanced: bool,
    createdAt: Timestamp,
    notes: string)

  const BalancedNote: string := "Ledger balanced"
  const ImbalanceNote: string := "Ledger imbalance detected"

  /** Math.Abs(customer - clearing - merchant) < 0.01m, evaluated exactly: on whole amounts the
      tolerance admits no difference at all. */
  predicate WithinOneCent(customer: int, clearing: int, merchant: int)
    ensures WithinOneCent(customer, clearing, merchant) <==> customer - clearing - merchant == 0
  {
    var difference := (customer - clearing - merchant) as real;
    (if difference < 0.0 then -difference else difference) < 0.01
  }

  /** The constructor ReconciliationSnapshot(totalPayments, pending, completed, failed, customer,
      clearing, merchant); the new id (Guid.NewGuid) and the creation time are parameters. The counts
      are stored as given, and their sum is not checked. */
  function NewSnapshot(id: Guid, totalPayments: int, pending: int, completed: int, failed: int,
                       customer: int, clearing: int, merchant: int, now: Timestamp): (r: ReconciliationSnapshot)
    ensures r.id == id && r.createdAt == now
    ensures r.totalPayments == totalPayments && r.pendingPayments == pending
    ensures r.completedPayments == completed && r.failedPayments == failed
    ensures r.customerBalance == customer && r.clearingBalance == clearing && r.merchantBalance == merchant
    ensures r.isBalanced <==> customer - clearing - merchant == 0
    ensures r.notes == (if r.isBalanced then BalancedNote else ImbalanceNote)
  {
    var balanced := WithinOneCent(customer, clearing, merchant);
    ReconciliationSnapshot(id, totalPayments, pending, completed, failed, customer, clearing, merchant,
                           balanced, now, if balanced then BalancedNote else ImbalanceNote)
  }
}
