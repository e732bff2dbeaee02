/** AggregateRoot<TId>: the list of domain events an aggregate has raised and not yet
    had cleared. Payment and WebhookAggregate each own one. */
module AggregateRoot {
  import opened DomainEvents

  class EventBuffer {
    /** _domainEvents, in the order the events were raised. */
    var pending: seq<DomainEvent>

    /** The field initialiser `new()`: an aggregate starts with no pending events. */
    constructor ()
      ensures pending == []
    {
      pending := [];
    }

    /** DomainEvents: the pending events in raise order. */
    function DomainEvents(): (r: seq<DomainEvent>)
      reads this
      ensures r == pending
    {
      pending
    }

    /** RaiseDomainEvent: appends exactly one event at the end. */
    method Raise(e: DomainEvent)
      modifies this
      ensures pending == old(pending) + [e]
    {
      pending := pending + [e];
    }

    /** ClearDomainEvents: empties the list. */
    method Clear()
      modifies this
      ensures pending == []
    {
      pending := [];
    }
  }
}
