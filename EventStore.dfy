/** The event store: an append-only table of serialised domain events, queried by aggregate
    or by event type in creation order. */
module EventStore {
  import opened Primitives
  import opened Wrappers
  import opened DomainEvents

  /** A row of the Events table. */
  datatype StoredEvent = StoredEvent(id: Guid, aggregateId: Guid, eventType: string, data: string, createdAt: Timestamp)

  /** System.Text.Json as far as the store uses it, not looked inside.
      `serializeDeclared` is Serialize<DomainEvent>: a value whose static type is the abstract base
      record is written with the base record's properties only, since DomainEvent declares no
      derived types for polymorphic serialisation.
      `serialize` is Serialize(e, e.GetType()): every property of the event's own record type.
      `deserialize(typeName, data)` reads `data` as the record type of that name, and may give
      null (None). */
  datatype JsonCodec = JsonCodec(
    serializeDeclared: BaseProperties -> string,
    serialize: DomainEvent -> string,
    deserialize: (string, string) -> Option<DomainEvent>)

  /** How an appended event is serialised: as AppendAsync is written, at the static type
      DomainEvent of its parameter; or at the event's runtime type, as evidently intended. */
  datatype Serialization = AsDeclaredType | AsRuntimeType

  /** The Data column written for an event. */
  function EventData(codec: JsonCodec, how: Serialization, e: DomainEvent): string {
    match how
    case AsDeclaredType => codec.serializeDeclared(e.Base())
    case AsRuntimeType => codec.serialize(e)
  }

  /** What reading the Data column back as the event's own type gives: the event itself when it
      was written at its runtime type; only its record type, aggregate and time, with a payload
      of defaults, when it was written at the declared type. */
  function ReadBack(how: Serialization, e: DomainEvent): (r: DomainEvent)
    ensures r.TypeName() == e.TypeName() && r.aggregateId == e.aggregateId && r.occurredAt == e.occurredAt
    ensures how == AsRuntimeType ==> r == e
    ensures how == AsDeclaredType ==> (r == e <==> HasDefaultPayload(e))
  {
    match how
    case AsDeclaredType => DeclaredTypeCopy(e)
    case AsRuntimeType => e
  }

  /** ReadBack of each event of a batch, in order. */
  function ReadBackAll(how: Serialization, events: seq<DomainEvent>): (r: seq<DomainEvent>)
    ensures |r| == |events|
    ensures forall i :: 0 <= i < |r| ==> r[i] == ReadBack(how, events[i])
    ensures how == AsRuntimeType ==> r == events
  {
    seq(|events|, i requires 0 <= i < |events| => ReadBack(how, events[i]))
  }

  /** Reading an event written at its runtime type back as its own type gives the event. */
  ghost predicate RoundTrips(codec: JsonCodec) {
    forall e: DomainEvent {:trigger codec.serialize(e)} :: codec.deserialize(e.TypeName(), codec.serialize(e)) == Some(e)
  }

  /** Reading the base properties (EventVersion "1.0") back as one of the five record types gives an
      event of that type whose missing constructor parameters take their defaults. */
  ghost predicate ReadsBaseProperties(codec: JsonCodec) {
    forall name: string, b: BaseProperties {:trigger codec.deserialize(name, codec.serializeDeclared(b))} ::
      name in KnownTypeNames && b.eventVersion == "1.0" ==>
        codec.deserialize(name, codec.serializeDeclared(b)) == FromBaseProperties(name, b)
  }

  /** What the codec is taken to do for the serialisation used. */
  ghost predicate Reads(codec: JsonCodec, how: Serialization) {
    match how
    case AsDeclaredType => ReadsBaseProperties(codec)
    case AsRuntimeType => RoundTrips(codec)
  }

  /** An event's Data, read back as the event's own type, gives ReadBack of the event. */
  lemma DataReadsBack(codec: JsonCodec, how: Serialization, e: DomainEvent)
    requires Reads(codec, how)
    ensures codec.deserialize(e.TypeName(), EventData(codec, how, e)) == Some(ReadBack(how, e))
  {
    if how == AsDeclaredType {
      assert codec.deserialize(e.TypeName(), codec.serializeDeclared(e.Base())) == FromBaseProperties(e.TypeName(), e.Base());
    } else {
      assert codec.deserialize(e.TypeName(), codec.serialize(e)) == Some(e);
    }
  }

  /** Deserialize<T> only ever produces a T. */
  ghost predicate ReadsNamedType(codec: JsonCodec) {
    forall name, data {:trigger codec.deserialize(name, data)} ::
      codec.deserialize(name, data).Some? ==> codec.deserialize(name, data).value.TypeName() == name
  }

  /** DeserializeEvent: a row whose type is one of the five known names is read as that type;
      any other row gives null. */
  function DeserializeEvent(row: StoredEvent, codec: JsonCodec): (r: Option<DomainEvent>)
    ensures !IsKnownTypeName(row.eventType) ==> r.None?
    ensures ReadsNamedType(codec) && r.Some? ==> r.value.TypeName() == row.eventType
  {
    if IsKnownTypeName(row.eventType) then codec.deserialize(row.eventType, row.data) else None
  }

  /** The rows that satisfy `keep`, in table order. */
  function Filter(rows: seq<StoredEvent>, keep: StoredEvent -> bool): (r: seq<StoredEvent>)
    ensures forall i :: 0 <= i < |r| ==> keep(r[i])
    ensures forall x :: x in r <==> x in rows && keep(x)
    decreases |rows|
  {
    if |rows| == 0 then []
    else
      var last := rows[|rows| - 1];
      Filter(rows[..|rows| - 1], keep) + (if keep(last) then [last] else [])
  }

  predicate SortedByCreatedAt(rows: seq<StoredEvent>) {
    forall i, j :: 0 <= i < j < |rows| ==> rows[i].createdAt <= rows[j].createdAt
  }

  /** Places `row` after every row of `sorted` that is not later than it: exactly the one row is
      added. */
  function Insert(sorted: seq<StoredEvent>, row: StoredEvent): (r: seq<StoredEvent>)
    ensures multiset(r) == multiset(sorted) + multiset{row}
    decreases |sorted|
  {
    if |sorted| == 0 then [row]
    else
      var prefix, last := sorted[..|sorted| - 1], sorted[|sorted| - 1];
      assert sorted == prefix + [last];
      if last.createdAt <= row.createdAt then sorted + [row]
      else Insert(prefix, row) + [last]
  }

  /** OrderBy(e => e.CreatedAt), as a stable insertion sort: a permutation of the rows. */
  function SortByCreatedAt(rows: seq<StoredEvent>): (r: seq<StoredEvent>)
    ensures multiset(r) == multiset(rows)
    decreases |rows|
  {
    if |rows| == 0 then []
    else
      var prefix := rows[..|rows| - 1];
      assert rows == prefix + [rows[|rows| - 1]];
      Insert(SortByCreatedAt(prefix), rows[|rows| - 1])
  }

  /** Select(DeserializeEvent).Where(e => e != null): the readable events, in row order. */
  function DeserializeAll(rows: seq<StoredEvent>, codec: JsonCodec): (r: seq<DomainEvent>)
    ensures |r| <= |rows|
    ensures forall e :: e in r ==> exists row :: row in rows && DeserializeEvent(row, codec) == Some(e)
    decreases |rows|
  {
    if |rows| == 0 then []
    else
      var prefix := DeserializeAll(rows[..|rows| - 1], codec);
      match DeserializeEvent(rows[|rows| - 1], codec)
      case Some(e) => prefix + [e]
      case None => prefix
  }

  /** The rows a query reads: those that satisfy its condition, in creation order. */
  function QueryRows(rows: seq<StoredEvent>, keep: StoredEvent -> bool): (r: seq<StoredEvent>)
    ensures SortedByCreatedAt(r)
    ensures multiset(r) == multiset(Filter(rows, keep))
    ensures forall x :: x in r <==> x in rows && keep(x)
  {
    var kept := Filter(rows, keep);
    SortIsSortedPermutation(kept);
    var sorted := SortByCreatedAt(kept);
    assert forall x :: x in sorted <==> x in kept by {
      forall x ensures x in sorted <==> x in kept {
        assert x in sorted <==> x in multiset(sorted);
        assert x in kept <==> x in multiset(kept);
      }
    }
    sorted
  }

  /** A sorted sequence stays sorted when a row no earlier than all of it is added at the end. */
  lemma SortedExtend(sorted: seq<StoredEvent>, row: StoredEvent)
    requires SortedByCreatedAt(sorted)
    requires forall i :: 0 <= i < |sorted| ==> sorted[i].createdAt <= row.createdAt
    ensures SortedByCreatedAt(sorted + [row])
  {
  }

  lemma {:induction false} InsertIsSorted(sorted: seq<StoredEvent>, row: StoredEvent)
    requires SortedByCreatedAt(sorted)
    ensures SortedByCreatedAt(Insert(sorted, row))
    decreases |sorted|
  {
    if |sorted| == 0 {
    } else if sorted[|sorted| - 1].createdAt <= row.createdAt {
      SortedExtend(sorted, row);
    } else {
      var prefix := sorted[..|sorted| - 1];
      var last := sorted[|sorted| - 1];
      InsertIsSorted(prefix, row);
      var inserted := Insert(prefix, row);
      forall i | 0 <= i < |inserted|
        ensures inserted[i].createdAt <= last.createdAt
      {
        assert inserted[i] in multiset(inserted);
        if inserted[i] != row {
          assert inserted[i] in multiset(prefix);
          var k :| 0 <= k < |prefix| && prefix[k] == inserted[i];
          assert sorted[k] == prefix[k];
        }
      }
      SortedExtend(inserted, last);
    }
  }

  lemma {:induction false} SortIsSortedPermutation(rows: seq<StoredEvent>)
    ensures SortedByCreatedAt(SortByCreatedAt(rows))
    ensures multiset(SortByCreatedAt(rows)) == multiset(rows)
    decreases |rows|
  {
    if |rows| > 0 {
      var prefix := rows[..|rows| - 1];
      assert rows == prefix + [rows[|rows| - 1]];
      SortIsSortedPermutation(prefix);
      InsertIsSorted(SortByCreatedAt(prefix), rows[|rows| - 1]);
    }
  }

  /** The condition of GetEventsAsync: the row belongs to the aggregate. */
  function ForAggregate(aggregateId: Guid): StoredEvent -> bool {
    (row: StoredEvent) => row.aggregateId == aggregateId
  }

  /** The condition of GetEventsByTypeAsync: the row has that discriminator. */
  function OfType(eventType: string): StoredEvent -> bool {
    (row: StoredEvent) => row.eventType == eventType
  }

  /** The events GetEventsAsync(aggregateId) returns from a table. */
  function EventsOf(rows: seq<StoredEvent>, aggregateId: Guid, codec: JsonCodec): (r: seq<DomainEvent>)
    ensures forall e :: e in r ==>
              exists row :: row in rows && row.aggregateId == aggregateId && DeserializeEvent(row, codec) == Some(e)
  {
    DeserializeAll(QueryRows(rows, ForAggregate(aggregateId)), codec)
  }

  /** The events GetEventsByTypeAsync(eventType) returns from a table. */
  function EventsOfType(rows: seq<StoredEvent>, eventType: string, codec: JsonCodec): (r: seq<DomainEvent>)
    ensures forall e :: e in r ==>
              exists row :: row in rows && row.eventType == eventType && DeserializeEvent(row, codec) == Some(e)
    ensures ReadsNamedType(codec) ==> forall e :: e in r ==> e.TypeName() == eventType
    ensures !IsKnownTypeName(eventType) ==> r == []
  {
    var queried := QueryRows(rows, OfType(eventType));
    if !IsKnownTypeName(eventType) then
      assert forall i :: 0 <= i < |queried| ==> queried[i].eventType == eventType by {
        forall i | 0 <= i < |queried| ensures queried[i].eventType == eventType {
          assert queried[i] in queried;
        }
      }
      UnknownRowsReadNothing(queried, codec);
      DeserializeAll(queried, codec)
    else
      DeserializeAll(queried, codec)
  }

  /** Rows whose type names are all unknown give no events. */
  lemma {:induction false} UnknownRowsReadNothing(rows: seq<StoredEvent>, codec: JsonCodec)
    requires forall i :: 0 <= i < |rows| ==> !IsKnownTypeName(rows[i].eventType)
    ensures DeserializeAll(rows, codec) == []
    decreases |rows|
  {
    if |rows| > 0 {
      UnknownRowsReadNothing(rows[..|rows| - 1], codec);
    }
  }

  lemma FilterOfAppend(rows: seq<StoredEvent>, keep: StoredEvent -> bool, row: StoredEvent)
    ensures Filter(rows + [row], keep) == Filter(rows, keep) + (if keep(row) then [row] else [])
  {
    var all := rows + [row];
    assert all[..|all| - 1] == rows;
  }

  lemma SortOfAppend(rows: seq<StoredEvent>, row: StoredEvent)
    ensures SortByCreatedAt(rows + [row]) == Insert(SortByCreatedAt(rows), row)
  {
    var all := rows + [row];
    assert all[..|all| - 1] == rows;
  }

  lemma DeserializeAllOfAppend(rows: seq<StoredEvent>, row: StoredEvent, codec: JsonCodec)
    ensures DeserializeAll(rows + [row], codec)
         == DeserializeAll(rows, codec) + (match DeserializeEvent(row, codec) case Some(e) => [e] case None => [])
  {
    var all := rows + [row];
    assert all[..|all| - 1] == rows;
  }

  /** A row that is added last, and is not earlier than any row it is sorted with, is read last. */
  lemma ReadAfterAppend(rows: seq<StoredEvent>, keep: StoredEvent -> bool, row: StoredEvent, codec: JsonCodec)
    requires keep(row)
    requires forall x :: x in rows && keep(x) ==> x.createdAt <= row.createdAt
    ensures DeserializeAll(QueryRows(rows + [row], keep), codec)
         == DeserializeAll(QueryRows(rows, keep), codec) + (match DeserializeEvent(row, codec) case Some(e) => [e] case None => [])
  {
    var kept := Filter(rows, keep);
    FilterOfAppend(rows, keep, row);
    SortOfAppend(kept, row);
    var sorted := QueryRows(rows, keep);
    assert sorted == SortByCreatedAt(kept);
    if |sorted| > 0 {
      assert sorted[|sorted| - 1] in sorted;
    }
    assert Insert(sorted, row) == sorted + [row];
    DeserializeAllOfAppend(sorted, row, codec);
  }

  class EfEventStore {
    /** The Events table. */
    var rows: seq<StoredEvent>

    /** A store over an existing table, whatever it holds. */
    constructor (existing: seq<StoredEvent>)
      ensures rows == existing
    {
      rows := existing;
    }

    /** AppendAsync(aggregateId, event): one row with a new id, the aggregate id, the event's type
        name, its JSON and the append time, added after the existing rows. The event parameter is
        typed DomainEvent, so its JSON holds the base record's properties only. */
    method Append(aggregateId: Guid, e: DomainEvent, rowId: Guid, now: Timestamp, codec: JsonCodec)
      modifies this
      ensures rows == old(rows) + [StoredEvent(rowId, aggregateId, e.TypeName(), codec.serializeDeclared(e.Base()), now)]
    {
      var stored := StoredEvent(rowId, aggregateId, e.TypeName(), codec.serializeDeclared(e.Base()), now);
      rows := rows + [stored];
    }

    /** GetEventsAsync(aggregateId). */
    function GetEvents(aggregateId: Guid, codec: JsonCodec): (r: seq<DomainEvent>)
      reads this
      ensures r == EventsOf(rows, aggregateId, codec)
    {
      EventsOf(rows, aggregateId, codec)
    }

    /** GetEventsByTypeAsync(eventType). */
    function GetEventsByType(eventType: string, codec: JsonCodec): (r: seq<DomainEvent>)
      reads this
      ensures r == EventsOfType(rows, eventType, codec)
    {
      EventsOfType(rows, eventType, codec)
    }
  }

  /** Appending an event at a time no earlier than the aggregate's stored events makes its
      ReadBack the last event read back for that aggregate. */
  lemma AppendThenGetEvents(rows: seq<StoredEvent>, aggregateId: Guid, e: DomainEvent, rowId: Guid, now: Timestamp,
                            codec: JsonCodec, how: Serialization)
    requires Reads(codec, how)
    requires forall x :: x in rows && x.aggregateId == aggregateId ==> x.createdAt <= now
    ensures EventsOf(rows + [StoredEvent(rowId, aggregateId, e.TypeName(), EventData(codec, how, e), now)], aggregateId, codec)
         == EventsOf(rows, aggregateId, codec) + [ReadBack(how, e)]
  {
    var row := StoredEvent(rowId, aggregateId, e.TypeName(), EventData(codec, how, e), now);
    TypeNameIdentifiesSubtype(e, e);
    DataReadsBack(codec, how, e);
    ReadAfterAppend(rows, ForAggregate(aggregateId), row, codec);
  }

  /** The same for a query by type: the event's own type name is the key it is read back under. */
  lemma AppendThenGetEventsByType(rows: seq<StoredEvent>, aggregateId: Guid, e: DomainEvent, rowId: Guid, now: Timestamp,
                                  codec: JsonCodec, how: Serialization)
    requires Reads(codec, how)
    requires forall x :: x in rows && x.eventType == e.TypeName() ==> x.createdAt <= now
    ensures EventsOfType(rows + [StoredEvent(rowId, aggregateId, e.TypeName(), EventData(codec, how, e), now)], e.TypeName(), codec)
         == EventsOfType(rows, e.TypeName(), codec) + [ReadBack(how, e)]
  {
    var row := StoredEvent(rowId, aggregateId, e.TypeName(), EventData(codec, how, e), now);
    TypeNameIdentifiesSubtype(e, e);
    DataReadsBack(codec, how, e);
    ReadAfterAppend(rows, OfType(e.TypeName()), row, codec);
  }

  /** As AppendAsync is written, an event the domain raised is not read back as itself: the row's
      JSON lacks its payload, so the aggregate's last event is a copy with the payment id, amounts,
      currency, reference and reason at their defaults. */
  lemma AppendedEventLosesPayload(rows: seq<StoredEvent>, aggregateId: Guid, e: DomainEvent, rowId: Guid, now: Timestamp,
                                  codec: JsonCodec)
    requires ReadsBaseProperties(codec) && e.paymentId != EmptyGuid
    requires forall x :: x in rows && x.aggregateId == aggregateId ==> x.createdAt <= now
    ensures var read := EventsOf(rows + [StoredEvent(rowId, aggregateId, e.TypeName(), codec.serializeDeclared(e.Base()), now)],
                                 aggregateId, codec);
            && |read| > 0 && read[|read| - 1] == DeclaredTypeCopy(e) && read[|read| - 1] != e
            && read[|read| - 1].paymentId == EmptyGuid
  {
    AppendThenGetEvents(rows, aggregateId, e, rowId, now, codec, AsDeclaredType);
    RaisedEventsLosePayload(e);
  }

  /** A row with an unknown type name is skipped: it changes no query's result and raises no error. */
  lemma UnknownRowIsSkipped(rows: seq<StoredEvent>, keep: StoredEvent -> bool, row: StoredEvent, codec: JsonCodec)
    requires !IsKnownTypeName(row.eventType)
    requires forall x :: x in rows && keep(x) ==> x.createdAt <= row.createdAt
    ensures DeserializeAll(QueryRows(rows + [row], keep), codec) == DeserializeAll(QueryRows(rows, keep), codec)
  {
    if keep(row) {
      ReadAfterAppend(rows, keep, row, codec);
    } else {
      var all := rows + [row];
      assert all[..|all| - 1] == rows;
      assert Filter(all, keep) == Filter(rows, keep);
    }
  }

  /** The rows appending `events` one after another under one aggregate at time `now` adds, the
      i-th with row id rowIds[i], serialised as `how` says. */
  function AppendedRows(aggregateId: Guid, events: seq<DomainEvent>, rowIds: seq<Guid>, now: Timestamp,
                        codec: JsonCodec, how: Serialization): (r: seq<StoredEvent>)
    requires |rowIds| == |events|
    ensures |r| == |events|
    ensures forall i :: 0 <= i < |r| ==>
              r[i] == StoredEvent(rowIds[i], aggregateId, events[i].TypeName(), EventData(codec, how, events[i]), now)
  {
    seq(|events|, i requires 0 <= i < |events| =>
      StoredEvent(rowIds[i], aggregateId, events[i].TypeName(), EventData(codec, how, events[i]), now))
  }

  /** The rows of a batch are the rows of all but its last event, then the last event's row. */
  lemma AppendedRowsOfSnoc(aggregateId: Guid, events: seq<DomainEvent>, rowIds: seq<Guid>, now: Timestamp,
                           codec: JsonCodec, how: Serialization)
    requires |rowIds| == |events| > 0
    ensures AppendedRows(aggregateId, events, rowIds, now, codec, how)
         == AppendedRows(aggregateId, events[..|events| - 1], rowIds[..|events| - 1], now, codec, how)
            + [StoredEvent(rowIds[|events| - 1], aggregateId, events[|events| - 1].TypeName(),
                           EventData(codec, how, events[|events| - 1]), now)]
  {
    var n := |events| - 1;
    var whole := AppendedRows(aggregateId, events, rowIds, now, codec, how);
    var split := AppendedRows(aggregateId, events[..n], rowIds[..n], now, codec, how)
                 + [StoredEvent(rowIds[n], aggregateId, events[n].TypeName(), EventData(codec, how, events[n]), now)];
    assert |whole| == |split|;
    forall i | 0 <= i < |whole| ensures whole[i] == split[i] {
      if i < n {
        assert events[..n][i] == events[i] && rowIds[..n][i] == rowIds[i];
      }
    }
  }

  /** Rows appended at `now` keep every row of the aggregate no later than `now`. */
  lemma AppendedRowsNotLater(rows: seq<StoredEvent>, aggregateId: Guid, events: seq<DomainEvent>, rowIds: seq<Guid>,
                             now: Timestamp, codec: JsonCodec, how: Serialization)
    requires |rowIds| == |events|
    requires forall x :: x in rows && x.aggregateId == aggregateId ==> x.createdAt <= now
    ensures forall x :: x in rows + AppendedRows(aggregateId, events, rowIds, now, codec, how) && x.aggregateId == aggregateId ==>
              x.createdAt <= now
  {
    var batch := AppendedRows(aggregateId, events, rowIds, now, codec, how);
    forall x | x in rows + batch && x.aggregateId == aggregateId ensures x.createdAt <= now {
      if x !in rows {
        var i :| 0 <= i < |batch| && batch[i] == x;
      }
    }
  }

  /** Reading back all but the last event and then the last reads back the whole batch. */
  lemma ReadBackAllOfSnoc(before: seq<DomainEvent>, how: Serialization, events: seq<DomainEvent>)
    requires |events| > 0
    ensures (before + ReadBackAll(how, events[..|events| - 1])) + [ReadBack(how, events[|events| - 1])]
         == before + ReadBackAll(how, events)
  {
    var n := |events| - 1;
    assert ReadBackAll(how, events[..n]) + [ReadBack(how, events[n])] == ReadBackAll(how, events);
  }

  /** Appending a batch of events for one aggregate, at a time no earlier than its stored events,
      makes their ReadBacks the last events read back for it, in the order they were appended
      (rows with equal CreatedAt keep the order they were added in). */
  lemma {:induction false} AppendAllThenGetEvents(rows: seq<StoredEvent>, aggregateId: Guid, events: seq<DomainEvent>,
                                                  rowIds: seq<Guid>, now: Timestamp, codec: JsonCodec, how: Serialization)
    requires Reads(codec, how) && |rowIds| == |events|
    requires forall x :: x in rows && x.aggregateId == aggregateId ==> x.createdAt <= now
    ensures EventsOf(rows + AppendedRows(aggregateId, events, rowIds, now, codec, how), aggregateId, codec)
         == EventsOf(rows, aggregateId, codec) + ReadBackAll(how, events)
    decreases |events|
  {
    if |events| == 0 {
      assert rows + AppendedRows(aggregateId, events, rowIds, now, codec, how) == rows;
    } else {
      var n := |events| - 1;
      var batch := AppendedRows(aggregateId, events[..n], rowIds[..n], now, codec, how);
      var last := StoredEvent(rowIds[n], aggregateId, events[n].TypeName(), EventData(codec, how, events[n]), now);
      var earlier := rows + batch;
      AppendAllThenGetEvents(rows, aggregateId, events[..n], rowIds[..n], now, codec, how);
      AppendedRowsOfSnoc(aggregateId, events, rowIds, now, codec, how);
      assert rows + AppendedRows(aggregateId, events, rowIds, now, codec, how) == earlier + [last];
      AppendedRowsNotLater(rows, aggregateId, events[..n], rowIds[..n], now, codec, how);
      AppendThenGetEvents(earlier, aggregateId, events[n], rowIds[n], now, codec, how);
      ReadBackAllOfSnoc(EventsOf(rows, aggregateId, codec), how, events);
    }
  }

  /** As AppendAsync is evidently intended, serialising each event at its runtime type, a batch
      appended for an aggregate is read back as exactly the events appended, in order. */
  lemma RuntimeTypeAppendReadsBackEvents(rows: seq<StoredEvent>, aggregateId: Guid, events: seq<DomainEvent>,
                                         rowIds: seq<Guid>, now: Timestamp, codec: JsonCodec)
    requires RoundTrips(codec) && |rowIds| == |events|
    requires forall x :: x in rows && x.aggregateId == aggregateId ==> x.createdAt <= now
    ensures EventsOf(rows + AppendedRows(aggregateId, events, rowIds, now, codec, AsRuntimeType), aggregateId, codec)
         == EventsOf(rows, aggregateId, codec) + events
  {
    AppendAllThenGetEvents(rows, aggregateId, events, rowIds, now, codec, AsRuntimeType);
  }

  /** The loop both payment handlers run over a payment's pending events: each is appended under
      the payment's id, in order, the i-th as row rowIds[i]. */
  method AppendEach(store: EfEventStore, aggregateId: Guid, events: seq<DomainEvent>, rowIds: seq<Guid>,
                    now: Timestamp, codec: JsonCodec)
    requires |rowIds| == |events|
    modifies store
    ensures store.rows == old(store.rows) + AppendedRows(aggregateId, events, rowIds, now, codec, AsDeclaredType)
  {
    for i := 0 to |events|
      invariant store.rows == old(store.rows) + AppendedRows(aggregateId, events[..i], rowIds[..i], now, codec, AsDeclaredType)
    {
      store.Append(aggregateId, events[i], rowIds[i], now, codec);
      AppendedRowsOfSnoc(aggregateId, events[..i + 1], rowIds[..i + 1], now, codec, AsDeclaredType);
      assert events[..i + 1][..i] == events[..i] && rowIds[..i + 1][..i] == rowIds[..i];
    }
    assert events[..|events|] == events && rowIds[..|events|] == rowIds;
  }
}
