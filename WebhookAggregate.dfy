/** WebhookAggregate: the aggregate root that owns the webhook deliveries of one payment. */
module WebhookAggregates {
  import opened Primitives
  import opened Wrappers
  import opened AggregateRoot
  import opened WebhookDeliveries

  /** The position OrderByDescending(CreatedAt).FirstOrDefault() picks: a delivery with the latest
      creation time, the first such in the list since the sort is stable. */
  function LatestIndex(ds: seq<WebhookDelivery>): (r: nat)
    requires |ds| > 0
    ensures r < |ds|
    ensures forall j :: 0 <= j < |ds| ==> ds[j].createdAt <= ds[r].createdAt
    ensures forall j :: 0 <= j < r ==> ds[j].createdAt < ds[r].createdAt
    decreases |ds|
  {
    if |ds| == 1 then 0
    else
      var k := LatestIndex(ds[..|ds| - 1]);
      if ds[|ds| - 1].createdAt > ds[k].createdAt then |ds| - 1 else k
  }

  /** Any(d => d.IsSuccessful), scanning from the front. */
  function AnySuccessful(ds: seq<WebhookDelivery>): (r: bool)
    reads ds
    ensures r <==> exists i :: 0 <= i < |ds| && ds[i].isSuccessful
    decreases |ds|
  {
    if |ds| == 0 then false
    else ds[0].isSuccessful || AnySuccessful(ds[1..])
  }

  class WebhookAggregate {
    const id: Guid
    const paymentId: Guid
    const createdAt: Timestamp
    /** The aggregate root's pending domain events; this aggregate raises none. */
    const events: EventBuffer
    /** _deliveries, in the order they were added. */
    var deliveries: seq<WebhookDelivery>

    ghost predicate Valid()
      reads this, deliveries
    {
      && id != EmptyGuid && paymentId != EmptyGuid
      && forall i :: 0 <= i < |deliveries| ==> deliveries[i].paymentId == paymentId && deliveries[i].Valid()
    }

    constructor Init(id: Guid, paymentId: Guid, now: Timestamp)
      ensures this.id == id && this.paymentId == paymentId && createdAt == now && deliveries == []
      ensures fresh(events) && events.pending == []
    {
      this.id, this.paymentId, createdAt := id, paymentId, now;
      deliveries := [];
      events := new EventBuffer();
    }

    /** The constructor WebhookAggregate(paymentId): the empty payment id is refused. The new id
        (Guid.NewGuid) and the creation time are parameters. */
    static method Create(id: Guid, paymentId: Guid, now: Timestamp) returns (r: Result<WebhookAggregate, Exception>)
      requires id != EmptyGuid
      ensures r.Failure? <==> paymentId == EmptyGuid
      ensures r.Failure? ==> r.error == Argument("Payment ID required", "")
      ensures r.Success? ==>
                && fresh(r.value) && fresh(r.value.events) && r.value.Valid()
                && r.value.id == id && r.value.paymentId == paymentId && r.value.createdAt == now
                && r.value.deliveries == [] && r.value.events.pending == []
    {
      if paymentId == EmptyGuid {
        return Failure(Argument("Payment ID required", ""));
      }
      var a := new WebhookAggregate.Init(id, paymentId, now);
      return Success(a);
    }

    /** AddDelivery(url, encryptedPayload): a new delivery for this aggregate's payment is appended;
        if the delivery's constructor refuses the arguments, nothing is added. */
    method AddDelivery(deliveryId: Guid, url: string, encryptedPayload: string, now: Timestamp) returns (r: Outcome<Exception>)
      requires Valid() && deliveryId != EmptyGuid
      modifies this
      ensures Valid()
      ensures r.Fail? <==> ValidateDelivery(paymentId, url, encryptedPayload).Fail?
      ensures r.Fail? ==> r.error == ValidateDelivery(paymentId, url, encryptedPayload).error && deliveries == old(deliveries)
      ensures r.Pass? ==>
                && |deliveries| == |old(deliveries)| + 1 && deliveries[..|old(deliveries)|] == old(deliveries)
                && var d := deliveries[|old(deliveries)|];
                   fresh(d) && d.id == deliveryId && d.paymentId == paymentId && d.url == url
                   && d.encryptedPayload == encryptedPayload && d.createdAt == now && d.State() == InitialAttemptState
    {
      var created := WebhookDelivery.Create(deliveryId, paymentId, url, encryptedPayload, now);
      if created.Failure? {
        return Fail(created.error);
      }
      deliveries := deliveries + [created.value];
      return Pass;
    }

    /** GetLatestDelivery(): null (None) without deliveries, otherwise the first of those created last. */
    function GetLatestDelivery(): (r: Option<WebhookDelivery>)
      reads this
      ensures r.None? <==> |deliveries| == 0
      ensures r.Some? ==>
                exists k :: 0 <= k < |deliveries| && r.value == deliveries[k]
                  && (forall j :: 0 <= j < |deliveries| ==> deliveries[j].createdAt <= deliveries[k].createdAt)
                  && (forall j :: 0 <= j < k ==> deliveries[j].createdAt < deliveries[k].createdAt)
    {
      if |deliveries| == 0 then None else Some(deliveries[LatestIndex(deliveries)])
    }

    /** HasSuccessfulDelivery(): some delivery's last attempt succeeded. */
    function HasSuccessfulDelivery(): (r: bool)
      reads this, deliveries
      ensures r <==> exists i :: 0 <= i < |deliveries| && deliveries[i].isSuccessful
    {
      AnySuccessful(deliveries)
    }
  }
}
