/** The domain events: the abstract DomainEvent record and its five sealed subtypes,
    as one datatype with a constructor per subtype. */
module DomainEvents {
  import opened Primitives
  import opened Wrappers

  /** A `string` property of an event record: None is null. Events the domain raises always
      carry a string; an event read back from JSON that lacks the property carries null. */
  type NullableString = Option<string>

  datatype DomainEvent =
    | PaymentCreatedEvent(aggregateId: Guid, paymentId: Guid, merchantId: Guid, amount: Int32,
                          currency: NullableString, reference: NullableString, occurredAt: Timestamp)
    | PaymentCompletedEvent(aggregateId: Guid, paymentId: Guid, occurredAt: Timestamp)
    | FundsReservedEvent(aggregateId: Guid, paymentId: Guid, amount: Int32, occurredAt: Timestamp)
    | FundsSettledEvent(aggregateId: Guid, paymentId: Guid, amount: Int32, occurredAt: Timestamp)
    | PaymentFailedEvent(aggregateId: Guid, paymentId: Guid, reason: NullableString, occurredAt: Timestamp)
  {
    /** EventVersion: every event is created with the record's default, "1.0". */
    function EventVersion(): string { "1.0" }

    /** GetType().Name: the name of the sealed record type. */
    function TypeName(): (r: string)
      ensures r in KnownTypeNames
    {
      match this
      case PaymentCreatedEvent(_, _, _, _, _, _, _) => "PaymentCreatedEvent"
      case PaymentCompletedEvent(_, _, _) => "PaymentCompletedEvent"
      case FundsReservedEvent(_, _, _, _) => "FundsReservedEvent"
      case FundsSettledEvent(_, _, _, _) => "FundsSettledEvent"
      case PaymentFailedEvent(_, _, _, _) => "PaymentFailedEvent"
    }

    /** The properties the base record DomainEvent declares. */
    function Base(): BaseProperties
    {
      BaseProperties(aggregateId, occurredAt, EventVersion())
    }
  }

  /** The names of the five sealed event records. */
  const KnownTypeNames: set<string> :=
    {"PaymentCreatedEvent", "PaymentCompletedEvent", "FundsReservedEvent", "FundsSettledEvent", "PaymentFailedEvent"}

  /** The properties of the abstract record DomainEvent(AggregateId, OccurredAt, EventVersion). */
  datatype BaseProperties = BaseProperties(aggregateId: Guid, occurredAt: Timestamp, eventVersion: string)

  /** The event System.Text.Json builds as the record type `name` from JSON that holds only the base
      properties (with EventVersion "1.0"): AggregateId and OccurredAt are read back, and every
      constructor parameter the JSON lacks takes its default (Guid.Empty, 0 or null). */
  function FromBaseProperties(name: string, b: BaseProperties): (r: Option<DomainEvent>)
    ensures r.Some? <==> name in KnownTypeNames
    ensures r.Some? ==> r.value.TypeName() == name && r.value.Base() == b.(eventVersion := "1.0")
    ensures r.Some? ==> r.value.paymentId == EmptyGuid
  {
    if name == "PaymentCreatedEvent" then
      Some(PaymentCreatedEvent(b.aggregateId, EmptyGuid, EmptyGuid, 0, None, None, b.occurredAt))
    else if name == "PaymentCompletedEvent" then Some(PaymentCompletedEvent(b.aggregateId, EmptyGuid, b.occurredAt))
    else if name == "FundsReservedEvent" then Some(FundsReservedEvent(b.aggregateId, EmptyGuid, 0, b.occurredAt))
    else if name == "FundsSettledEvent" then Some(FundsSettledEvent(b.aggregateId, EmptyGuid, 0, b.occurredAt))
    else if name == "PaymentFailedEvent" then Some(PaymentFailedEvent(b.aggregateId, EmptyGuid, None, b.occurredAt))
    else None
  }

  /** The five type names a stored event can be read back as. */
  predicate IsKnownTypeName(name: string) {
    name in KnownTypeNames
  }

  /** The known type names are exactly the type names of events: each is the name of the event
      read back from base properties under it. */
  lemma KnownTypeNamesAreEventNames(name: string)
    ensures IsKnownTypeName(name) <==> exists e: DomainEvent :: e.TypeName() == name
  {
    if IsKnownTypeName(name) {
      var e := FromBaseProperties(name, BaseProperties(EmptyGuid, 0, "1.0")).value;
      assert e.TypeName() == name;
    }
  }

  /** The type name of an event is one of the five known names, and it identifies the subtype:
      two events with the same name are built by the same constructor. */
  lemma TypeNameIdentifiesSubtype(a: DomainEvent, b: DomainEvent)
    ensures IsKnownTypeName(a.TypeName())
    ensures a.TypeName() == b.TypeName() <==>
              (a.PaymentCreatedEvent? && b.PaymentCreatedEvent?) || (a.PaymentCompletedEvent? && b.PaymentCompletedEvent?)
              || (a.FundsReservedEvent? && b.FundsReservedEvent?) || (a.FundsSettledEvent? && b.FundsSettledEvent?)
              || (a.PaymentFailedEvent? && b.PaymentFailedEvent?)
  {
  }

  /** An event whose payload, the properties beyond the base record's, holds only defaults. */
  predicate HasDefaultPayload(e: DomainEvent) {
    match e
    case PaymentCreatedEvent(_, p, m, a, c, r, _) => p == EmptyGuid && m == EmptyGuid && a == 0 && c.None? && r.None?
    case PaymentCompletedEvent(_, p, _) => p == EmptyGuid
    case FundsReservedEvent(_, p, a, _) => p == EmptyGuid && a == 0
    case FundsSettledEvent(_, p, a, _) => p == EmptyGuid && a == 0
    case PaymentFailedEvent(_, p, r, _) => p == EmptyGuid && r.None?
  }

  /** What comes back when an event is written with only its base properties and read as its own
      type: the same record type, aggregate and time, and a payload of defaults. It is the event
      itself exactly when the event's payload already was all defaults. */
  function DeclaredTypeCopy(e: DomainEvent): (r: DomainEvent)
    ensures Some(r) == FromBaseProperties(e.TypeName(), e.Base())
    ensures r.TypeName() == e.TypeName() && r.aggregateId == e.aggregateId && r.occurredAt == e.occurredAt
    ensures HasDefaultPayload(r)
    ensures r == e <==> HasDefaultPayload(e)
  {
    FromBaseProperties(e.TypeName(), e.Base()).value
  }

  /** Every event the domain raises names its payment, so none of them survives a write with only
      its base properties: what is read back differs from what was written. */
  lemma RaisedEventsLosePayload(e: DomainEvent)
    requires e.paymentId != EmptyGuid
    ensures DeclaredTypeCopy(e) != e
    ensures DeclaredTypeCopy(e).paymentId == EmptyGuid
  {
  }
}
