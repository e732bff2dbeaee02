/** The repositories the handlers work through, as in-memory tables. A payment is stored as its
    persisted value; a webhook aggregate as the object itself. */
module Repositories {
  import opened Primitives
  import opened Wrappers
  import opened Enums
  import opened Payments
  import opened WebhookAggregates
  import opened ReconciliationSnapshots

  /** The message of the DbUpdateException a violated unique index raises on SaveChanges. */
  const DbUpdateMessage: string := "An error occurred while saving the entity changes. See the inner exception for details."

  /** Payments table invariants: every row is a valid payment, ids are unique, and the unique
      index on Reference holds. */
  predicate PaymentRowsValid(rows: seq<PaymentRecord>) {
    && (forall i :: 0 <= i < |rows| ==> RecordValid(rows[i]))
    && (forall i, j :: 0 <= i < j < |rows| ==> rows[i].id != rows[j].id)
    && (forall i, j :: 0 <= i < j < |rows| ==> rows[i].reference.value != rows[j].reference.value)
  }

  /** FirstOrDefault(p => p.Reference.Value == reference) over the table. */
  function FindByReference(rows: seq<PaymentRecord>, reference: string): (r: Option<PaymentRecord>)
    ensures r.None? <==> forall i :: 0 <= i < |rows| ==> rows[i].reference.value != reference
    ensures r.Some? ==> r.value in rows && r.value.reference.value == reference
    decreases |rows|
  {
    if |rows| == 0 then None
    else if rows[0].reference.value == reference then Some(rows[0])
    else
      var rest := FindByReference(rows[1..], reference);
      assert rest.None? ==> forall i :: 1 <= i < |rows| ==> rows[i].reference.value != reference by {
        if rest.None? {
          forall i | 1 <= i < |rows| ensures rows[i].reference.value != reference {
            assert rows[1..][i - 1] == rows[i];
          }
        }
      }
      rest
  }

  /** Where(p => p.Status == status) over the table, in table order. */
  function FilterByStatus(rows: seq<PaymentRecord>, status: PaymentStatus): (r: seq<PaymentRecord>)
    ensures forall p :: p in r <==> p in rows && p.status == status
    ensures |r| <= |rows|
    decreases |rows|
  {
    if |rows| == 0 then []
    else
      var last := rows[|rows| - 1];
      FilterByStatus(rows[..|rows| - 1], status) + (if last.status == status then [last] else [])
  }

  /** The table with the row of `p`'s id replaced by `p`. */
  function ReplaceById(rows: seq<PaymentRecord>, p: PaymentRecord): (r: seq<PaymentRecord>)
    ensures |r| == |rows|
    ensures forall i :: 0 <= i < |rows| ==> r[i] == if rows[i].id == p.id then p else rows[i]
  {
    seq(|rows|, i requires 0 <= i < |rows| => if rows[i].id == p.id then p else rows[i])
  }

  class PaymentRepository {
    var rows: seq<PaymentRecord>

    ghost predicate Valid()
      reads this
    {
      PaymentRowsValid(rows)
    }

    constructor (existing: seq<PaymentRecord>)
      requires PaymentRowsValid(existing)
      ensures rows == existing && Valid()
    {
      rows := existing;
    }

    /** AddAsync(payment): the row is inserted, unless it breaks the primary key or the unique
        reference index, in which case SaveChanges fails and nothing is stored. */
    method Add(p: PaymentRecord) returns (r: Outcome<Exception>)
      requires Valid() && RecordValid(p)
      modifies this
      ensures Valid()
      ensures r.Fail? <==> exists i :: 0 <= i < |old(rows)| && (old(rows)[i].id == p.id || old(rows)[i].reference.value == p.reference.value)
      ensures r.Fail? ==> r.error == DbUpdate(DbUpdateMessage) && rows == old(rows)
      ensures r.Pass? ==> rows == old(rows) + [p]
    {
      if exists i :: 0 <= i < |rows| && (rows[i].id == p.id || rows[i].reference.value == p.reference.value) {
        return Fail(DbUpdate(DbUpdateMessage));
      }
      rows := rows + [p];
      return Pass;
    }

    /** GetByReferenceAsync(reference). */
    function GetByReference(reference: string): (r: Option<PaymentRecord>)
      reads this
      ensures r == FindByReference(rows, reference)
    {
      FindByReference(rows, reference)
    }

    /** GetByStatusAsync(status). */
    function GetByStatus(status: PaymentStatus): (r: seq<PaymentRecord>)
      reads this
      ensures r == FilterByStatus(rows, status)
    {
      FilterByStatus(rows, status)
    }

    /** UpdateAsync(payment), as the repository interface describes it: the stored row of that
        payment is replaced by its new state. */
    method Update(p: PaymentRecord)
      requires Valid() && RecordValid(p)
      requires exists i :: 0 <= i < |rows| && rows[i].id == p.id && rows[i].reference == p.reference
      modifies this
      ensures Valid()
      ensures rows == ReplaceById(old(rows), p)
    {
      rows := ReplaceById(rows, p);
    }
  }

  /** With references unique, a reference finds the one row that carries it. */
  lemma FindByReferenceIsUnique(rows: seq<PaymentRecord>, k: nat)
    requires PaymentRowsValid(rows) && k < |rows|
    ensures FindByReference(rows, rows[k].reference.value) == Some(rows[k])
  {
    var found := FindByReference(rows, rows[k].reference.value);
    var i :| 0 <= i < |rows| && rows[i] == found.value;
    assert rows[i].reference.value == rows[k].reference.value;
  }

  /** Replacing a payment's row by a valid state of the same payment keeps the table valid, and a
      lookup by its reference then finds the new state. */
  lemma ReplaceKeepsTableValid(rows: seq<PaymentRecord>, p: PaymentRecord, k: nat)
    requires PaymentRowsValid(rows) && RecordValid(p)
    requires k < |rows| && rows[k].id == p.id && rows[k].reference == p.reference
    ensures PaymentRowsValid(ReplaceById(rows, p))
    ensures FindByReference(ReplaceById(rows, p), p.reference.value) == Some(p)
  {
    var replaced := ReplaceById(rows, p);
    assert replaced[k] == p;
    FindByReferenceIsUnique(replaced, k);
  }

  class WebhookRepository {
    /** The WebhookAggregates table. */
    var aggregates: seq<WebhookAggregate>

    /** The unique index on PaymentId. */
    ghost predicate Valid()
      reads this
    {
      forall i, j :: 0 <= i < j < |aggregates| ==> aggregates[i].paymentId != aggregates[j].paymentId
    }

    constructor ()
      ensures aggregates == [] && Valid()
    {
      aggregates := [];
    }

    /** AddAsync(aggregate): a second aggregate for the same payment breaks the unique index. */
    method Add(a: WebhookAggregate) returns (r: Outcome<Exception>)
      requires Valid()
      modifies this
      ensures Valid()
      ensures r.Fail? <==> exists i :: 0 <= i < |old(aggregates)| && old(aggregates)[i].paymentId == a.paymentId
      ensures r.Fail? ==> r.error == DbUpdate(DbUpdateMessage) && aggregates == old(aggregates)
      ensures r.Pass? ==> aggregates == old(aggregates) + [a]
    {
      if exists i :: 0 <= i < |aggregates| && aggregates[i].paymentId == a.paymentId {
        return Fail(DbUpdate(DbUpdateMessage));
      }
      aggregates := aggregates + [a];
      return Pass;
    }
  }

  class ReconciliationRepository {
    /** The ReconciliationSnapshots table, in insertion order. */
    var snapshots: seq<ReconciliationSnapshot>

    constructor ()
      ensures snapshots == []
    {
      snapshots := [];
    }

    /** AddSnapshotAsync(snapshot). */
    method AddSnapshot(s: ReconciliationSnapshot)
      modifies this
      ensures snapshots == old(snapshots) + [s]
    {
      snapshots := snapshots + [s];
    }
  }
}
