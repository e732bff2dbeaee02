/** WebhookDelivery: one webhook notification and its delivery attempts, retried with
    exponential backoff. Child entity of WebhookAggregate. */
module WebhookDeliveries {
  import opened Primitives
  import opened Wrappers

  /** 2^k: Math.Pow(2, k) is exact for the counts that reach it. */
  function Pow2(k: nat): (r: nat)
    ensures r >= 1
    ensures k >= 1 ==> r >= 2 && r % 2 == 0
  {
    if k == 0 then 1 else 2 * Pow2(k - 1)
  }

  /** The checks of the constructor WebhookDelivery(paymentId, url, encryptedPayload), in order. */
  function ValidateDelivery(paymentId: Guid, url: string, encryptedPayload: string): (r: Outcome<Exception>)
    ensures paymentId == EmptyGuid ==> r == Fail(Argument("Payment ID required", ""))
    ensures paymentId != EmptyGuid && IsBlank(url) ==> r == Fail(Argument("URL required", ""))
    ensures paymentId != EmptyGuid && !IsBlank(url) && IsBlank(encryptedPayload) ==> r == Fail(Argument("Payload required", ""))
    ensures r.Pass? <==> paymentId != EmptyGuid && !IsBlank(url) && !IsBlank(encryptedPayload)
  {
    if paymentId == EmptyGuid then Fail(Argument("Payment ID required", ""))
    else if IsBlank(url) then Fail(Argument("URL required", ""))
    else if IsBlank(encryptedPayload) then Fail(Argument("Payload required", ""))
    else Pass
  }

  /** The part of a delivery that its attempts change. */
  datatype AttemptState = AttemptState(
    retryCount: int,
    lastAttemptAt: Option<Timestamp>,
    isSuccessful: bool,
    nextRetryAt: Option<Timestamp>)

  /** The attempt state of a delivery that has just been created. */
  const InitialAttemptState := AttemptState(0, None, false, None)

  /** RecordAttempt(successful, maxRetries) at time `now`: the count goes up by one and the outcome
      is recorded; a failure that leaves the count below maxRetries schedules the next attempt
      2^count seconds later, any other attempt leaves the schedule as it was. */
  function AfterAttempt(s: AttemptState, successful: bool, maxRetries: int, now: Timestamp): (r: AttemptState)
    requires s.retryCount >= 0
    ensures r.retryCount == s.retryCount + 1 && r.lastAttemptAt == Some(now) && r.isSuccessful == successful
    ensures successful || r.retryCount >= maxRetries ==> r.nextRetryAt == s.nextRetryAt
    ensures !successful && r.retryCount < maxRetries ==> r.nextRetryAt.Some? && r.nextRetryAt.value > now
  {
    var count := s.retryCount + 1;
    var next := if !successful && count < maxRetries then Some(now + Pow2(count) * TicksPerSecond) else s.nextRetryAt;
    AttemptState(count, Some(now), successful, next)
  }

  /** ShouldRetry() at time `now`: the last attempt failed and its retry time has come. A missing
      retry time compares as false, as a lifted DateTime? comparison does. */
  predicate ShouldRetry(s: AttemptState, now: Timestamp)
    ensures s.nextRetryAt.None? ==> !ShouldRetry(s, now)
    ensures s.isSuccessful ==> !ShouldRetry(s, now)
  {
    !s.isSuccessful && s.nextRetryAt.Some? && s.nextRetryAt.value <= now
  }

  /** A delivery never attempted is never due for a retry. */
  lemma NewDeliveryNeverRetries(now: Timestamp)
    ensures !ShouldRetry(InitialAttemptState, now)
  {
  }

  /** After a failed attempt that leaves the count k below the maximum, a retry is due exactly
      from 2^k seconds after the attempt on. */
  lemma FailedAttemptSchedulesBackoff(s: AttemptState, maxRetries: int, now: Timestamp, later: Timestamp)
    requires s.retryCount >= 0 && s.retryCount + 1 < maxRetries
    ensures var k := s.retryCount + 1;
            ShouldRetry(AfterAttempt(s, false, maxRetries, now), later) <==> later >= now + Pow2(k) * TicksPerSecond
  {
  }

  /** A successful attempt is never retried. */
  lemma SuccessfulAttemptStopsRetries(s: AttemptState, maxRetries: int, now: Timestamp, later: Timestamp)
    requires s.retryCount >= 0
    ensures !ShouldRetry(AfterAttempt(s, true, maxRetries, now), later)
  {
  }

  /** The final failure keeps the earlier schedule, so a delivery that has used up its retries is
      still reported as due: the code does not stop retrying at the maximum. */
  lemma FinalFailureKeepsOldSchedule(s: AttemptState, maxRetries: int, now: Timestamp)
    requires s.retryCount >= 0 && s.retryCount + 1 >= maxRetries
    requires !s.isSuccessful && s.nextRetryAt.Some?
    ensures AfterAttempt(s, false, maxRetries, now).nextRetryAt == s.nextRetryAt
    ensures ShouldRetry(AfterAttempt(s, false, maxRetries, now), s.nextRetryAt.value)
  {
  }

  /** With the default maximum of five, four failures in a row from a new delivery wait 2, 4, 8
      and 16 seconds; the fifth failure schedules nothing new. */
  lemma {:induction false} DefaultBackoffSequence(t1: Timestamp, t2: Timestamp, t3: Timestamp, t4: Timestamp, t5: Timestamp)
    ensures var s1 := AfterAttempt(InitialAttemptState, false, 5, t1);
            var s2 := AfterAttempt(s1, false, 5, t2);
            var s3 := AfterAttempt(s2, false, 5, t3);
            var s4 := AfterAttempt(s3, false, 5, t4);
            var s5 := AfterAttempt(s4, false, 5, t5);
            && s1.nextRetryAt == Some(t1 + 2 * TicksPerSecond)
            && s2.nextRetryAt == Some(t2 + 4 * TicksPerSecond)
            && s3.nextRetryAt == Some(t3 + 8 * TicksPerSecond)
            && s4.nextRetryAt == Some(t4 + 16 * TicksPerSecond)
            && s5.nextRetryAt == s4.nextRetryAt && s5.retryCount == 5
  {
    assert Pow2(1) == 2;
    assert Pow2(2) == 4;
    assert Pow2(3) == 8;
    assert Pow2(4) == 16;
  }

  class WebhookDelivery {
    const id: Guid
    const paymentId: Guid
    const url: string
    const encryptedPayload: string
    const createdAt: Timestamp
    var retryCount: int
    var lastAttemptAt: Option<Timestamp>
    var isSuccessful: bool
    var nextRetryAt: Option<Timestamp>

    function State(): AttemptState
      reads this
    {
      AttemptState(retryCount, lastAttemptAt, isSuccessful, nextRetryAt)
    }

    ghost predicate Valid()
      reads this
    {
      && id != EmptyGuid && ValidateDelivery(paymentId, url, encryptedPayload).Pass?
      && retryCount >= 0
      && (lastAttemptAt.Some? <==> retryCount > 0)
      && (nextRetryAt.Some? ==> lastAttemptAt.Some?)
    }

    constructor Init(id: Guid, paymentId: Guid, url: string, encryptedPayload: string, now: Timestamp)
      ensures this.id == id && this.paymentId == paymentId && this.url == url
      ensures this.encryptedPayload == encryptedPayload && createdAt == now
      ensures State() == InitialAttemptState
    {
      this.id, this.paymentId, this.url, this.encryptedPayload, createdAt := id, paymentId, url, encryptedPayload, now;
      retryCount, lastAttemptAt, isSuccessful, nextRetryAt := 0, None, false, None;
    }

    /** The constructor WebhookDelivery(paymentId, url, encryptedPayload); the new id
        (Guid.NewGuid) and the creation time are parameters. */
    static method Create(id: Guid, paymentId: Guid, url: string, encryptedPayload: string, now: Timestamp)
      returns (r: Result<WebhookDelivery, Exception>)
      requires id != EmptyGuid
      ensures r.Failure? <==> ValidateDelivery(paymentId, url, encryptedPayload).Fail?
      ensures r.Failure? ==> r.error == ValidateDelivery(paymentId, url, encryptedPayload).error
      ensures r.Success? ==>
                && fresh(r.value) && r.value.Valid()
                && r.value.id == id && r.value.paymentId == paymentId && r.value.url == url
                && r.value.encryptedPayload == encryptedPayload && r.value.createdAt == now
                && r.value.State() == InitialAttemptState
    {
      var check := ValidateDelivery(paymentId, url, encryptedPayload);
      if check.Fail? {
        return Failure(check.error);
      }
      var d := new WebhookDelivery.Init(id, paymentId, url, encryptedPayload, now);
      return Success(d);
    }

    /** RecordAttempt(successful, maxRetries), both clock readings being `now`. */
    method RecordAttempt(successful: bool, maxRetries: int, now: Timestamp)
      requires Valid()
      modifies this
      ensures Valid()
      ensures State() == AfterAttempt(old(State()), successful, maxRetries, now)
    {
      retryCount := retryCount + 1;
      lastAttemptAt := Some(now);
      isSuccessful := successful;
      if !successful && retryCount < maxRetries {
        var backoffSeconds := Pow2(retryCount);
        nextRetryAt := Some(now + backoffSeconds * TicksPerSecond);
      }
    }

    /** ShouldRetry() at time `now`. */
    function ShouldRetryAt(now: Timestamp): (r: bool)
      reads this
      ensures r == ShouldRetry(State(), now)
    {
      !isSuccessful && nextRetryAt.Some? && nextRetryAt.value <= now
    }
  }
}
