/** The enumerations of the domain: ledger accounts and payment statuses. */
module Enums {
  import opened Wrappers

  /** LedgerAccount: the three accounts of the double-entry ledger. */
  datatype LedgerAccount = Customer | Clearing | Merchant

  /** PaymentStatus: the values the Status column admits. Nothing in the core produces Cancelled. */
  datatype PaymentStatus = Pending | Completed | Failed | Cancelled

  /** Enum.ToString(): the member name, also the text stored in the Status column. */
  function StatusName(s: PaymentStatus): (r: string)
    ensures |r| > 0
  {
    match s
    case Pending => "Pending"
    case Completed => "Completed"
    case Failed => "Failed"
    case Cancelled => "Cancelled"
  }

  /** Enum.Parse<PaymentStatus> on the texts the Status column holds: the four member names.
      None stands for the ArgumentException it throws otherwise. */
  function ParseStatus(name: string): (r: Option<PaymentStatus>)
    ensures r.Some? ==> StatusName(r.value) == name
    ensures r.None? <==> name !in {"Pending", "Completed", "Failed", "Cancelled"}
  {
    if name == "Pending" then Some(Pending)
    else if name == "Completed" then Some(Completed)
    else if name == "Failed" then Some(Failed)
    else if name == "Cancelled" then Some(Cancelled)
    else None
  }

  /** The status names are distinct, and parsing a stored name gives the status back. */
  lemma StatusNameRoundTrips(s: PaymentStatus, t: PaymentStatus)
    ensures ParseStatus(StatusName(s)) == Some(s)
    ensures StatusName(s) == StatusName(t) ==> s == t
  {
  }
}
