# FinLedger core, modelled in Dafny

FinLedger is a payment service. A merchant creates a payment under an idempotency reference.
The payment reserves the customer's funds in a three-account double-entry ledger
(Customer, Clearing, Merchant). Completing it settles the funds from Clearing to the Merchant and
queues an AES-GCM-encrypted webhook notification. A reconciliation job totals the accounts over all
payments and records a snapshot. Every domain event a payment raises is appended to an
event store, which can be queried by aggregate or by event type.

This project models that core: the domain layer (value objects, strongly typed ids, the
`Entity`/`AggregateRoot` base classes, the `Payment` and `WebhookAggregate` aggregates, ledger
entries, webhook deliveries, reconciliation snapshots, domain events), the three command handlers,
the EF event store, the repositories the handlers use, and the FluentValidation validators.

Form of the model:

* **Values as datatypes.** Value objects and write-once entities (`Money`, `PaymentReference`,
  `EncryptedPayload`, `MerchantId`, `TransactionId`, `LedgerEntry`, `ReconciliationSnapshot`, the
  domain events) are datatypes. Each throwing constructor is a function returning
  `Result<_, Exception>`, with the same checks in the same order and the same messages (the
  `Entity` constructor's guard never fires as written; see Findings).
* **Mutable objects as classes.** Objects the source mutates are classes with `var` fields and
  methods with `modifies` clauses:
  * `Payment`, whose pending-event list is an `EventBuffer` (the `AggregateRoot` list);
  * `WebhookAggregate` and `WebhookDelivery`;
  * the repositories and `EfEventStore`, whose tables are `seq` fields;
  * the three handlers, whose `Handle` methods are proved against specification functions
    (`CompletedRecord`, `NewPaymentRecord`, `SnapshotOf`, `AppendedRows`, `FindByReference`, …).
* **Handler loops.** Each loop of a handler is a method with a loop invariant:
  * appending a payment's pending events (`AppendEach`);
  * summing the account balances during reconciliation (`SumBalances`).
* **Pure queries.** The event store's queries (filter, stable insertion sort by `CreatedAt`,
  deserialise, skip unknown type names) and the validators are functions.
* **Numbers.**
  * C# `int` is the subtype `Int32`, and `Money`'s unchecked `+` wraps explicitly.
  * `Guid` is a 128-bit natural number, `DateTime` a tick count.
  * `string.IsNullOrWhiteSpace` uses .NET's exact white-space set.
* **Parameters instead of effects.** Everything the source takes from its environment is a
  parameter:
  * `Guid.NewGuid()` results (required non-empty);
  * clock readings;
  * the random nonce;
  * the SHA-256 transaction hasher;
  * the AES-GCM cipher, with the ghost predicates `Sound` and `Authenticating` stating what it
    guarantees;
  * System.Text.Json, with the predicates `RoundTrips`, `ReadsBaseProperties` and `ReadsNamedType`.
    As written, the store serialises each event at the declared type `DomainEvent`, so only the
    base-record properties are stored (`Serialization.AsDeclaredType`, see Findings);
  * `Uri.TryCreate`.

The webhook encryption key is a constructor parameter of `CompletePaymentHandler`. As written,
the source hard-codes a 15-character key, which Encrypt refuses (see Findings).

Where the repository interface and the EF repository disagree, the model follows the interface.
`PaymentRepository.UpdateAsync` throws `NotImplementedException`
(FinLedger/Infrastructure/Repositories/PaymentRepository.cs:103-106), while `IPaymentRepository.UpdateAsync`
describes an update. The model's `Update` replaces the stored row, because `CompletePaymentHandler`
relies on that.

## Model

| member | source | states |
|---|---|---|
| `Primitives.Wrap32` | FinLedger/Domain/ValueObjects/Money.cs:26-31 | unchecked 32-bit int arithmetic: in range the value is kept; just above int.MaxValue it wraps to the negative value 2^32 lower, just below int.MinValue to the value 2^32 higher; the result is zero exactly for multiples of 2^32 |
| `Entity.StaticObjectEquals` | FinLedger/Domain/Shared/Entity.cs:13 | the two-argument Equals the guard calls: false when exactly one side is null, and otherwise true exactly for equal values |
| `Entity.NewEntity` | FinLedger/Domain/Shared/Entity.cs:11-16 | as written, every id is accepted, Guid.Empty included: the guard compares a boxed Guid with null and never fires |
| `Entity.NewEntityIntended` | FinLedger/Domain/Shared/Entity.cs:11-16 | the intended guard: exactly the empty Guid is refused with ArgumentException "Id cannot be default value"; any other id is accepted as the written constructor accepts it |
| `Entity.DefaultIdIsAccepted` | FinLedger/Domain/Shared/Entity.cs:13-14 | the written and the intended constructor differ exactly on Guid.Empty, which the written one accepts |
| `Entity.EqualsEntity` | FinLedger/Domain/Shared/Entity.cs:23-24 | Equals(Entity) is true of the entity itself, false for null, and only true of an entity with the same hash code |
| `Entity.EqualsObject` | FinLedger/Domain/Shared/Entity.cs:20-21 | Equals(object) is false unless the object is an entity, and for an entity it agrees with Equals(Entity) |
| `Entity.OpEquals` | FinLedger/Domain/Shared/Entity.cs:29-30 | `==` holds exactly when both sides are null, or both are entities with the same id |
| `Entity.OpNotEquals` | FinLedger/Domain/Shared/Entity.cs:32-33 | `!=` holds exactly when one side is null and the other is not, or both are entities with different ids |
| `Entity.OpNotEqualsIsNegation` | FinLedger/Domain/Shared/Entity.cs:32-33 | `!=` is always the negation of `==` |
| `Entity.EqualsIsEquivalence` | FinLedger/Domain/Shared/Entity.cs:20-24 | Equals is reflexive, symmetric and transitive; it is false for null and for objects of unrelated types |
| `Entity.DifferentKindsSameIdAreEqual` | FinLedger/Domain/Shared/Entity.cs:20-21 | entities of different concrete classes with the same id compare equal, both through Equals(object) and through `==` |
| `Entity.EqualEntitiesHashAlike` | FinLedger/Domain/Shared/Entity.cs:20-27 | equal entities have equal `HashCode`s (the hash of the id alone), including entities of different concrete classes that share an id |
| `AggregateRoot.EventBuffer.constructor` | FinLedger/Domain/Shared/AggregateRoot.cs:11 | an aggregate starts with no pending domain events |
| `AggregateRoot.EventBuffer.DomainEvents` | FinLedger/Domain/Shared/AggregateRoot.cs:16 | exposes the pending events in the order they were raised |
| `AggregateRoot.EventBuffer.Raise` | FinLedger/Domain/Shared/AggregateRoot.cs:18-19 | appends exactly the one event at the end and keeps the earlier ones |
| `AggregateRoot.EventBuffer.Clear` | FinLedger/Domain/Shared/AggregateRoot.cs:21-22 | leaves no pending events |
| `MerchantIds.NewMerchantId` | FinLedger/Domain/StronglyTypedIds/MerchantId.cs:9-14 | fails with "Merchant ID cannot be empty" exactly for the empty Guid; otherwise it wraps the value |
| `MerchantIds.Equals` | FinLedger/Domain/StronglyTypedIds/MerchantId.cs:18-19 | true exactly when the other object is a MerchantId with the same value; false for null and other types |
| `MerchantIds.EqualsIsEquivalence` | FinLedger/Domain/StronglyTypedIds/MerchantId.cs:18-21 | equality is an equivalence, false for null, and equal ids hash alike |
| `TransactionIds.NewTransactionId` | FinLedger/Domain/StronglyTypedIds/TransactionId.cs:10-15 | fails with "Transaction ID cannot be empty" exactly for the empty Guid; otherwise it wraps the value |
| `TransactionIds.Equals` | FinLedger/Domain/StronglyTypedIds/TransactionId.cs:19-20 | true exactly when the other object is a TransactionId with the same value; false for null and other types |
| `TransactionIds.EqualsIsEquivalence` | FinLedger/Domain/StronglyTypedIds/TransactionId.cs:19-22 | equality is an equivalence, false for null, and equal ids hash alike |
| `ValueObjects.NewMoney` | FinLedger/Domain/ValueObjects/Money.cs:15-24 | succeeds exactly for a non-negative amount with a non-blank 3-character currency; a negative amount gives "Amount cannot be negative", checked first, and a bad currency the ISO 4217 message |
| `ValueObjects.Add` | FinLedger/Domain/ValueObjects/Money.cs:26-31 | different currencies are refused; a sum above int.MaxValue wraps negative and is refused as negative; otherwise the result is the exact sum in the shared currency |
| `ValueObjects.MoneyEquals` | FinLedger/Domain/ValueObjects/Money.cs:36-37 | true exactly when the other object is a Money with the same amount and currency; false for null and for an object of another type |
| `ValueObjects.PositiveAndZeroExclusive` | FinLedger/Domain/ValueObjects/Money.cs:33-34 | IsPositive and IsZero never hold together, and a constructed Money has exactly one of them |
| `ValueObjects.Money.IsPositive` | FinLedger/Domain/ValueObjects/Money.cs:33 | for a Money the constructor accepts, positive exactly when not zero |
| `ValueObjects.Money.IsZero` | FinLedger/Domain/ValueObjects/Money.cs:34 | a zero Money is the identity of Add in its currency |
| `ValueObjects.MoneyEqualsIsEquivalence` | FinLedger/Domain/ValueObjects/Money.cs:36-37 | Money equality is reflexive and symmetric, and false for null and for other types |
| `ValueObjects.AddCommutes` | FinLedger/Domain/ValueObjects/Money.cs:26-31 | a + b fails exactly when b + a fails, and when they succeed they are equal |
| `ValueObjects.AddZeroIsIdentity` | FinLedger/Domain/ValueObjects/Money.cs:26-31 | adding zero of the same currency gives the same Money back |
| `ValueObjects.AddAssociates` | FinLedger/Domain/ValueObjects/Money.cs:26-31 | for one currency, (a + b) + c and a + (b + c) both succeed with the same sum, or both fail |
| `ValueObjects.NewPaymentReference` | FinLedger/Domain/ValueObjects/Money.cs:53-58 | succeeds exactly for a non-blank value of at most 50 characters; otherwise "Payment reference must be 1-50 characters" |
| `ValueObjects.ReferenceEquals` | FinLedger/Domain/ValueObjects/Money.cs:60-61 | true exactly when the other object is a PaymentReference wrapping the same string; false for null and other types |
| `ValueObjects.NewEncryptedPayload` | FinLedger/Domain/ValueObjects/Money.cs:78-90 | cipher text, nonce and tag must each be non-blank, checked in that order, each with its own ArgumentException |
| `ValueObjects.Encrypt` | FinLedger/Domain/ValueObjects/Money.cs:92-117 | a blank plaintext, then a blank or short (< 32) key, are refused with their ArgumentExceptions; a non-ASCII key prefix is refused by AES; with a sound cipher it succeeds exactly otherwise, keeping the nonce |
| `ValueObjects.Decrypt` | FinLedger/Domain/ValueObjects/Money.cs:119-142 | a short key is refused with ArgumentException; for a usable key, a failed authentication (the cipher throwing CryptographicException) or a refused key size becomes InvalidOperationException "Decryption failed - payload may be tampered", any other exception of the cipher escapes unchanged, and an opened payload gives its plaintext; no CryptographicException ever escapes |
| `ValueObjects.KeysSharingPrefixAreInterchangeable` | FinLedger/Domain/ValueObjects/Money.cs:99 | only the first 32 key characters are used: keys that share them encrypt and decrypt identically |
| `ValueObjects.DecryptInvertsEncrypt` | FinLedger/Domain/ValueObjects/Money.cs:92-142 | round trip: Decrypt of what Encrypt produced, under any key with the same first 32 characters, returns the plaintext |
| `ValueObjects.DecryptAcceptsOnlySealedPayloads` | FinLedger/Domain/ValueObjects/Money.cs:119-142 | with an authenticating cipher, a payload that decrypts is exactly what Encrypt makes of that plaintext, key and nonce |
| `Enums.StatusName` | FinLedger/Infrastructure/Configurations/PaymentConfiguration.cs:25-28 | a status is stored as a non-empty name |
| `Enums.ParseStatus` | FinLedger/Infrastructure/Configurations/PaymentConfiguration.cs:25-28 | each of the four names ToString writes into the Status column parses back to a status of that name; the model refuses every other text |
| `Enums.StatusNameRoundTrips` | FinLedger/Infrastructure/Configurations/PaymentConfiguration.cs:25-28 | Enum.Parse of a stored name gives the status back, and distinct statuses have distinct names |
| `DomainEvents.TypeNameIdentifiesSubtype` | FinLedger/Domain/Events/PaymentCreatedEvent.cs:3-38 | an event's type name is one of the five record names, and two events share a name exactly when they are of the same record type |
| `DomainEvents.DomainEvent.TypeName` | FinLedger/Infrastructure/Repositories/EfEventStore.cs:29 | GetType().Name is always one of the five record names |
| `DomainEvents.FromBaseProperties` | FinLedger/Infrastructure/Repositories/EfEventStore.cs:79-88 | the record Deserialize builds from JSON with only the base properties: defined exactly for the five names, of that type, with that aggregate id and time, and Guid.Empty as payment id |
| `DomainEvents.KnownTypeNamesAreEventNames` | FinLedger/Infrastructure/Repositories/EfEventStore.cs:77-89 | a name is one the switch reads exactly when it is the type name of some event |
| `DomainEvents.DeclaredTypeCopy` | FinLedger/Infrastructure/Repositories/EfEventStore.cs:30 | what an event stored as written (only its `Base()` properties: aggregate id, time and EventVersion "1.0", as DomainEvent.cs:5 declares them) reads back as: same type, aggregate and time, a default payload, and the event itself exactly when its payload already was default |
| `DomainEvents.RaisedEventsLosePayload` | FinLedger/Domain/Events/PaymentCreatedEvent.cs:3-38 | an event that names its payment does not survive that write: it comes back different, with Guid.Empty as payment id |
| `LedgerEntries.NewLedgerEntry` | FinLedger/Domain/Entities/LedgerEntry.cs:23-44 | the four checks in order with their messages; it succeeds exactly for a real payment id and exactly one positive side; the hash is computed from (payment, account, debit, credit, time) |
| `LedgerEntries.HashIsDeterministic` | FinLedger/Domain/Entities/LedgerEntry.cs:39-44 | two entries built from the same values at the same instant carry the same hash, whatever their own ids |
| `LedgerEntries.DebitAndCreditOfAmountAreValid` | FinLedger/Domain/Entities/LedgerEntry.cs:23-37 | a positive amount gives a valid debit and a valid credit whose contributions cancel |
| `PaymentLedger.AccountBalanceAppend` | FinLedger/Domain/Aggregates/Payment.cs:133-137 | an account's balance over appended entries is the sum of the balances of the parts |
| `PaymentLedger.NetBalanceAppend` | FinLedger/Domain/Aggregates/Payment.cs:133-137 | the net balance over appended entries is the sum of the net balances of the parts |
| `PaymentLedger.PairBalances` | FinLedger/Domain/Aggregates/Payment.cs:133-137 | the balances of a two-entry ledger are the two entries' contributions |
| `PaymentLedger.AccountsPartitionNetBalance` | FinLedger/Domain/Aggregates/Payment.cs:133-137 | the three account balances add up to the net balance of the ledger |
| `PaymentLedger.CustomerBalanceSign` | FinLedger/Domain/Aggregates/Payment.cs:81-89 | with only debits on Customer, its balance is never positive, and it is zero exactly when no Customer entry exists |
| `PaymentLedger.UntouchedAccountHasZeroBalance` | FinLedger/Domain/Aggregates/Payment.cs:133-137 | an account no entry touches has balance zero |
| `PaymentLedger.LedgerCheckValue` | FinLedger/Domain/Aggregates/Payment.cs:142-150 | customer - clearing - merchant in unchecked int arithmetic (Payment.cs:149); on a ledger that nets to zero it is twice the customer balance, wrapped to 32 bits |
| `PaymentLedger.IsLedgerBalancedMeansNoCustomerEntry` | FinLedger/Domain/Aggregates/Payment.cs:142-150 | as written, on a ledger whose customer balance stays above int.MinValue, the check holds exactly while the customer account has no entry |
| `PaymentLedger.IntendedCheckIsNetBalance` | FinLedger/Domain/Aggregates/Payment.cs:142-150 | the corrected check (the three balances sum to zero) is exactly the double-entry invariant |
| `Payments.Payment.Load` | FinLedger/Infrastructure/Repositories/PaymentRepository.cs:30-40 | a materialised payment has exactly the stored state and no pending events |
| `Payments.Payment.Init` | FinLedger/Domain/Aggregates/Payment.cs:60-66 | the field assignments: Pending, created now, no completion, no retries, no failure, no entries |
| `Payments.Payment.Create` | FinLedger/Domain/Aggregates/Payment.cs:50-75 | a null amount gives ArgumentNullException, a non-positive one "Amount must be positive"; otherwise a valid Pending payment with no entries that raised PaymentCreated then FundsReserved |
| `Payments.Payment.ReserveFunds` | FinLedger/Domain/Aggregates/Payment.cs:81-89 | only a Pending payment reserves: it appends the customer debit and the clearing credit of the amount, and changes nothing else; otherwise it throws and changes nothing |
| `Payments.Payment.MarkCompleted` | FinLedger/Domain/Aggregates/Payment.cs:95-109 | a non-Pending payment throws "Cannot complete payment in X state" and is unchanged; a Pending one becomes Completed now, gains the clearing debit and merchant credit, and raises PaymentCompleted then FundsSettled |
| `Payments.Payment.MarkFailed` | FinLedger/Domain/Aggregates/Payment.cs:115-127 | Completed or Failed is refused, then a blank reason; otherwise the payment becomes Failed with that reason and raises PaymentFailed; a refusal changes nothing, and the ledger is never touched |
| `Payments.Payment.IncrementRetry` | FinLedger/Domain/Aggregates/Payment.cs:152-156 | refused at five retries, otherwise the count goes up by one, so it stays in 0..5 |
| `Payments.Payment.GetAccountBalance` | FinLedger/Domain/Aggregates/Payment.cs:133-137 | the sum of credit - debit over that account's entries; the customer balance is at most zero, and zero exactly until funds are reserved |
| `Payments.Payment.IsLedgerBalanced` | FinLedger/Domain/Aggregates/Payment.cs:142-150 | as written, while the customer balance is above int.MinValue, true exactly while no funds are reserved |
| `Payments.Payment.IsLedgerBalancedIntended` | FinLedger/Domain/Aggregates/Payment.cs:142-150 | the corrected check holds on every payment |
| `Payments.Payment.AppendPair` | FinLedger/Domain/Aggregates/Payment.cs:86-88 | appending a debit and a credit of the amount keeps every payment invariant, including a zero net balance |
| `Payments.ReserveThenSettleBalances` | FinLedger/Domain/Aggregates/Payment.cs:81-109 | after reserve and settle of amount A the balances are Customer -A, Clearing 0, Merchant +A |
| `Payments.IsLedgerBalancedFailsAfterReserve` | FinLedger/Domain/Aggregates/Payment.cs:142-150 | the as-written check value is -2A wrapped to 32 bits (-2A itself for A up to 2^30) after reserving and after settling, and nonzero, so the check is false on both; the corrected check holds on both |
| `Payments.ReservationsBalances` | FinLedger/Domain/Aggregates/Payment.cs:81-89 | k consecutive ReserveFunds calls of amount A put k * A on Clearing and take k * A from Customer |
| `Payments.ReservingRepeatedlyOverflowsClearing` | FinLedger/Domain/Aggregates/Payment.cs:81-137 | once k reservations of A with k * A >= 2^31 open a ledger, the running Clearing sum over that prefix has passed int.MaxValue (so the checked Sum of GetAccountBalance(Clearing) throws) and the customer balance there is at most int.MinValue, whatever follows |
| `WebhookDeliveries.ValidateDelivery` | FinLedger/Domain/Entities/WebhookDelivery.cs:25-27 | the three constructor checks in order, each with its message; it passes exactly when all hold |
| `WebhookDeliveries.AfterAttempt` | FinLedger/Domain/Entities/WebhookDelivery.cs:37-48 | an attempt increments the count, records the time and the outcome; a success, or the failure that reaches the maximum, leaves NextRetryAt unchanged, and any other failure schedules a time after the attempt |
| `WebhookDeliveries.Pow2` | FinLedger/Domain/Entities/WebhookDelivery.cs:45 | Math.Pow(2, k) is at least 1, and even from k = 1 on |
| `WebhookDeliveries.ShouldRetry` | FinLedger/Domain/Entities/WebhookDelivery.cs:50 | never due without a retry time (the lifted comparison with null is false) nor after a success |
| `WebhookDeliveries.NewDeliveryNeverRetries` | FinLedger/Domain/Entities/WebhookDelivery.cs:50 | a delivery never attempted is never due for a retry |
| `WebhookDeliveries.FailedAttemptSchedulesBackoff` | FinLedger/Domain/Entities/WebhookDelivery.cs:43-46 | after the k-th failure below the maximum, a retry is due exactly from 2^k seconds after the attempt |
| `WebhookDeliveries.SuccessfulAttemptStopsRetries` | FinLedger/Domain/Entities/WebhookDelivery.cs:37-50 | a successful attempt is never retried |
| `WebhookDeliveries.FinalFailureKeepsOldSchedule` | FinLedger/Domain/Entities/WebhookDelivery.cs:43-50 | the failure that reaches the maximum keeps the earlier retry time, so the delivery still reports itself due |
| `WebhookDeliveries.DefaultBackoffSequence` | FinLedger/Domain/Entities/WebhookDelivery.cs:37-48 | with the default maximum of 5, successive failures wait 2, 4, 8 and 16 seconds, and the fifth schedules nothing new |
| `WebhookDeliveries.WebhookDelivery.Init` | FinLedger/Domain/Entities/WebhookDelivery.cs:29-34 | the field assignments: no attempts, not successful, no retry time |
| `WebhookDeliveries.WebhookDelivery.Create` | FinLedger/Domain/Entities/WebhookDelivery.cs:22-35 | fails exactly when a constructor check fails, with that check's exception; otherwise a fresh valid delivery with no attempts |
| `WebhookDeliveries.WebhookDelivery.RecordAttempt` | FinLedger/Domain/Entities/WebhookDelivery.cs:37-48 | the new attempt state is the one AfterAttempt gives, and the delivery invariant is kept |
| `WebhookDeliveries.WebhookDelivery.ShouldRetryAt` | FinLedger/Domain/Entities/WebhookDelivery.cs:50 | not successful, with a retry time that has come; a missing retry time counts as not due |
| `WebhookAggregates.LatestIndex` | FinLedger/Domain/Aggregates/WebhookAggregate.cs:36-37 | picks a delivery with the latest creation time, the first such one in list order |
| `WebhookAggregates.AnySuccessful` | FinLedger/Domain/Aggregates/WebhookAggregate.cs:39-40 | true exactly when some delivery succeeded |
| `WebhookAggregates.WebhookAggregate.Init` | FinLedger/Domain/Aggregates/WebhookAggregate.cs:22-28 | the field assignments: no deliveries, no pending events |
| `WebhookAggregates.WebhookAggregate.Create` | FinLedger/Domain/Aggregates/WebhookAggregate.cs:22-28 | the empty payment id is refused with "Payment ID required"; otherwise a fresh valid aggregate with no deliveries |
| `WebhookAggregates.WebhookAggregate.AddDelivery` | FinLedger/Domain/Aggregates/WebhookAggregate.cs:30-34 | a delivery the constructor refuses adds nothing and throws its exception; otherwise exactly one fresh delivery for this payment, with no attempts yet, is appended |
| `WebhookAggregates.WebhookAggregate.GetLatestDelivery` | FinLedger/Domain/Aggregates/WebhookAggregate.cs:36-37 | null exactly when there are no deliveries; otherwise the first delivery among those created last |
| `WebhookAggregates.WebhookAggregate.HasSuccessfulDelivery` | FinLedger/Domain/Aggregates/WebhookAggregate.cs:39-40 | true exactly when some delivery succeeded |
| `ReconciliationSnapshots.WithinOneCent` | FinLedger/Domain/Entities/ReconciliationSnapshot.cs:44 | on whole amounts, the 0.01 tolerance means customer - clearing - merchant is exactly zero |
| `ReconciliationSnapshots.NewSnapshot` | FinLedger/Domain/Entities/ReconciliationSnapshot.cs:24-46 | counts and balances are stored as given; IsBalanced is customer - clearing - merchant == 0, and the note follows it |
| `Repositories.FindByReference` | FinLedger/Infrastructure/Repositories/PaymentRepository.cs:30-40 | null exactly when no row has the reference; otherwise a stored row carrying it |
| `Repositories.FilterByStatus` | FinLedger/Infrastructure/Repositories/PaymentRepository.cs:93-101 | keeps exactly the rows of that status |
| `Repositories.ReplaceById` | FinLedger/Application/Interfaces/IPaymentRepository.cs:14 | same length; the row with the payment's id becomes the new state and every other row is kept |
| `Repositories.PaymentRepository.constructor` | FinLedger/Infrastructure/Repositories/PaymentRepository.cs:14-18 | a repository over a valid table |
| `Repositories.PaymentRepository.Add` | FinLedger/Infrastructure/Repositories/PaymentRepository.cs:20-28 | the row is appended unless its id or its reference is already stored; then SaveChanges fails with DbUpdateException and nothing changes; the table invariants are kept |
| `Repositories.PaymentRepository.GetByReference` | FinLedger/Infrastructure/Repositories/PaymentRepository.cs:30-40 | the lookup FindByReference over the current table |
| `Repositories.PaymentRepository.GetByStatus` | FinLedger/Infrastructure/Repositories/PaymentRepository.cs:93-101 | the filter FilterByStatus over the current table, in table order |
| `Repositories.PaymentRepository.Update` | FinLedger/Application/Interfaces/IPaymentRepository.cs:14 | the stored row of the payment is replaced by its new state, and the table stays valid |
| `Repositories.FindByReferenceIsUnique` | FinLedger/Infrastructure/Configurations/PaymentConfiguration.cs:56 | with the unique reference index, a lookup finds the one row carrying that reference |
| `Repositories.ReplaceKeepsTableValid` | FinLedger/Application/Interfaces/IPaymentRepository.cs:14 | replacing a row by a valid state of the same payment keeps the table valid, and the reference then finds the new state |
| `Repositories.WebhookRepository.constructor` | FinLedger/Infrastructure/Repositories/WebhookRepository.cs:16-20 | starts with an empty table that satisfies the unique index |
| `Repositories.WebhookRepository.Add` | FinLedger/Infrastructure/Repositories/WebhookRepository.cs:22-29 | an aggregate for a payment that already has one violates the unique PaymentId index: DbUpdateException and nothing stored; otherwise it is appended |
| `Repositories.ReconciliationRepository.constructor` | FinLedger/Infrastructure/Repositories/ReconciliationRepository.cs:16-20 | starts with no snapshots |
| `Repositories.ReconciliationRepository.AddSnapshot` | FinLedger/Infrastructure/Repositories/ReconciliationRepository.cs:22-30 | appends exactly the snapshot |
| `EventStore.ReadBack` | FinLedger/Infrastructure/Repositories/EfEventStore.cs:30 | what a stored event reads back as: same type, aggregate and time; the event itself at its runtime type; at the declared type, the event itself exactly when its payload is default |
| `EventStore.ReadBackAll` | FinLedger/Infrastructure/Repositories/EfEventStore.cs:47-53 | ReadBack of each event in order, as many as the events; the events themselves at the runtime type |
| `EventStore.DataReadsBack` | FinLedger/Infrastructure/Repositories/EfEventStore.cs:30-88 | a known type name and the JSON written for an event deserialise to ReadBack of the event |
| `EventStore.DeserializeEvent` | FinLedger/Infrastructure/Repositories/EfEventStore.cs:70-91 | an unknown type name reads as null; a known one is read as that record type |
| `EventStore.Filter` | FinLedger/Infrastructure/Repositories/EfEventStore.cs:42-54 | keeps exactly the rows satisfying the query's condition |
| `EventStore.DeserializeAll` | FinLedger/Infrastructure/Repositories/EfEventStore.cs:47-53 | every event returned is what some row deserialises to, and there are no more events than rows |
| `EventStore.QueryRows` | FinLedger/Infrastructure/Repositories/EfEventStore.cs:44-46 | the matching rows sorted by CreatedAt, a permutation of the filtered rows |
| `EventStore.Insert` | FinLedger/Infrastructure/Repositories/EfEventStore.cs:46 | inserting adds exactly the one row (equal multisets) |
| `EventStore.SortedExtend` | FinLedger/Infrastructure/Repositories/EfEventStore.cs:46 | a sorted sequence stays sorted when a row no earlier than all of it is added at the end |
| `EventStore.InsertIsSorted` | FinLedger/Infrastructure/Repositories/EfEventStore.cs:46 | inserting into a sorted sequence keeps it sorted |
| `EventStore.SortByCreatedAt` | FinLedger/Infrastructure/Repositories/EfEventStore.cs:46 | the sorted rows are a permutation of the input |
| `EventStore.SortIsSortedPermutation` | FinLedger/Infrastructure/Repositories/EfEventStore.cs:46 | OrderBy(CreatedAt) gives a sorted permutation of its input |
| `EventStore.EventsOf` | FinLedger/Infrastructure/Repositories/EfEventStore.cs:42-54 | every event returned comes from a row of that aggregate |
| `EventStore.EventsOfType` | FinLedger/Infrastructure/Repositories/EfEventStore.cs:56-68 | every event returned comes from a row of that type, and is of that type; an unknown type name gives nothing |
| `EventStore.UnknownRowsReadNothing` | FinLedger/Infrastructure/Repositories/EfEventStore.cs:77-90 | rows whose type names are all unknown give no events |
| `EventStore.FilterOfAppend` | FinLedger/Infrastructure/Repositories/EfEventStore.cs:44-45 | filtering a table with one more row filters the old table, then the row |
| `EventStore.SortOfAppend` | FinLedger/Infrastructure/Repositories/EfEventStore.cs:46 | sorting a table with one more row inserts that row into the sorted old table |
| `EventStore.DeserializeAllOfAppend` | FinLedger/Infrastructure/Repositories/EfEventStore.cs:47-53 | deserialising one more row adds its event, if it has one, at the end |
| `EventStore.ReadAfterAppend` | FinLedger/Infrastructure/Repositories/EfEventStore.cs:42-54 | a matching row no earlier than the matching rows is read last |
| `EventStore.EfEventStore.constructor` | FinLedger/Infrastructure/Repositories/EfEventStore.cs:17-21 | a store over the given table |
| `EventStore.EfEventStore.Append` | FinLedger/Infrastructure/Repositories/EfEventStore.cs:23-40 | appends exactly one row with the new id, the aggregate id, the type name, the JSON of the base-record properties only, and the time |
| `EventStore.EfEventStore.GetEvents` | FinLedger/Infrastructure/Repositories/EfEventStore.cs:42-54 | the events EventsOf reads from the current table |
| `EventStore.EfEventStore.GetEventsByType` | FinLedger/Infrastructure/Repositories/EfEventStore.cs:56-68 | the events EventsOfType reads from the current table |
| `EventStore.AppendThenGetEvents` | FinLedger/Infrastructure/Repositories/EfEventStore.cs:23-54 | an event appended no earlier than the aggregate's others is read back last, as its ReadBack: a default-payload copy as written, the event itself at the runtime type |
| `EventStore.AppendThenGetEventsByType` | FinLedger/Infrastructure/Repositories/EfEventStore.cs:23-68 | the same for a query by the event's own type name |
| `EventStore.AppendedEventLosesPayload` | FinLedger/Infrastructure/Repositories/EfEventStore.cs:23-54 | as written, an appended event that names its payment is read back last as DeclaredTypeCopy, different from what was appended, with Guid.Empty as payment id |
| `EventStore.UnknownRowIsSkipped` | FinLedger/Infrastructure/Repositories/EfEventStore.cs:49-52 | a row with an unknown type name changes no query's result |
| `EventStore.AppendedRows` | FinLedger/Infrastructure/Repositories/EfEventStore.cs:23-40 | the batch has one row per event, the i-th built from the i-th event and row id, serialised as chosen |
| `EventStore.AppendedRowsOfSnoc` | FinLedger/Infrastructure/Repositories/EfEventStore.cs:23-40 | a batch's rows are those of all but its last event, then the last event's row |
| `EventStore.ReadBackAllOfSnoc` | FinLedger/Infrastructure/Repositories/EfEventStore.cs:42-54 | reading back all but the last event of a batch and then the last reads back the whole batch, in order |
| `EventStore.AppendedRowsNotLater` | FinLedger/Infrastructure/Repositories/EfEventStore.cs:25-32 | rows appended now keep every row of the aggregate no later than now |
| `EventStore.AppendAllThenGetEvents` | FinLedger/Infrastructure/Repositories/EfEventStore.cs:23-54 | appending a batch for one aggregate makes the ReadBacks of its events the last ones read back, in append order |
| `EventStore.RuntimeTypeAppendReadsBackEvents` | FinLedger/Infrastructure/Repositories/EfEventStore.cs:23-54 | intended: serialised at the runtime type with round-tripping JSON, the batch reads back as exactly its events, in order |
| `EventStore.AppendEach` | FinLedger/Application/Handlers/CreatePaymentHandler.cs:62-68 | the loop over pending events appends exactly the rows AppendedRows describes at the declared type, in order |
| `Validators.Check` | FinLedger/Application/Validators/CreatePaymentCommandValidator.cs:10-11 | a check reports its message exactly when it fails |
| `Validators.ReferenceRule` | FinLedger/Application/Validators/CreatePaymentCommandValidator.cs:21-23 | "Reference required" exactly for a blank reference, "Reference max 50 characters" exactly beyond 50 characters, and nothing else |
| `Validators.AmountRule` | FinLedger/Application/Validators/CreatePaymentCommandValidator.cs:13-15 | the positive message exactly for amount <= 0, the too-large message exactly from 1 000 000 000 on, and nothing else |
| `Validators.CurrencyRule` | FinLedger/Application/Validators/CreatePaymentCommandValidator.cs:17-19 | the required message exactly for a blank currency, the length message exactly for a length other than 3, and nothing else |
| `Validators.CreatePaymentErrors` | FinLedger/Application/Validators/CreatePaymentCommandValidator.cs:8-29 | no messages exactly when every rule accepts the command |
| `Validators.CreatePaymentErrorsOfRules` | FinLedger/Application/Validators/CreatePaymentCommandValidator.cs:8-29 | a message is reported exactly when one of the five rules reports it |
| `Validators.CreatePaymentErrorsReportFailingChecks` | FinLedger/Application/Validators/CreatePaymentCommandValidator.cs:10-15 | the MerchantId, both Amount and the WebhookUrl messages are each reported exactly when their check fails |
| `Validators.CreatePaymentErrorsReportFieldChecks` | FinLedger/Application/Validators/CreatePaymentCommandValidator.cs:17-23 | both Currency and both Reference messages are each reported exactly when their check fails |
| `Validators.MessagesDistinct` | FinLedger/Application/Validators/CreatePaymentCommandValidator.cs:10-27 | the eight validator messages are pairwise different |
| `Validators.CompletePaymentErrors` | FinLedger/Application/Validators/CreatePaymentCommandValidator.cs:31-38 | the Reference rule; no messages exactly when the PaymentReference constructor accepts the reference |
| `Validators.ValidatorBoundsAmountMoreTightly` | FinLedger/Application/Validators/CreatePaymentCommandValidator.cs:13-15 | a validated command builds a positive Money and a reference; amounts the validator refuses as too large are still a valid Money |
| `CreatePaymentHandlers.BuildArguments` | FinLedger/Application/Handlers/CreatePaymentHandler.cs:51-53 | the value objects are built in order, and the first refusing constructor's exception is the result; success exactly when all three accept |
| `CreatePaymentHandlers.NewPaymentRecord` | FinLedger/Application/Handlers/CreatePaymentHandler.cs:51-59 | succeeds exactly for a valid command with a positive amount, giving a valid Pending payment carrying the reservation pair; a zero amount passes Money and is refused by Payment |
| `CreatePaymentHandlers.CreatePaymentHandler.constructor` | FinLedger/Application/Handlers/CreatePaymentHandler.cs:21-29 | keeps the repository and the event store |
| `CreatePaymentHandlers.CreatePaymentHandler.Handle` | FinLedger/Application/Handlers/CreatePaymentHandler.cs:31-77 | a stored reference returns that payment and writes nothing, so a second call with the same reference returns the first one's id; a refused command writes nothing; a clashing id fails at SaveChanges; otherwise the reserved payment is stored and its two events appended in order; a success always names the one stored payment with the reference |
| `CreatePaymentHandlers.ValidatedCommandCreatesPayment` | FinLedger/Application/Validators/CreatePaymentCommandValidator.cs:8-29 | a command the validator accepts passes every constructor on the way to a stored payment |
| `CreatePaymentHandlers.NewPaymentBalances` | FinLedger/Application/Handlers/CreatePaymentHandler.cs:55-59 | a new payment of amount A has Customer -A, Clearing +A and Merchant 0; the corrected check holds and the as-written one fails |
| `CompletePaymentHandlers.CompletedRecord` | FinLedger/Domain/Aggregates/Payment.cs:95-109 | a completed Pending payment stays valid with the same identity; it is Completed now, with two entries appended, Clearing down by the amount, Merchant up by it and Customer unchanged |
| `CompletePaymentHandlers.SettleBalances` | FinLedger/Domain/Aggregates/Payment.cs:102-104 | the settlement pair moves the amount from Clearing to Merchant and keeps the net balance |
| `CompletePaymentHandlers.WebhookSetUp` | FinLedger/Application/Handlers/CompletePaymentHandler.cs:85-99 | Encrypt's exception if it throws; otherwise it passes exactly when the URL and the serialised envelope are non-blank |
| `CompletePaymentHandlers.CompletePaymentHandler.constructor` | FinLedger/Application/Handlers/CompletePaymentHandler.cs:23-35 | keeps the repositories, the event store and the key |
| `CompletePaymentHandlers.CompletePaymentHandler.SetUpWebhook` | FinLedger/Application/Handlers/CompletePaymentHandler.cs:79-102 | a set-up exception stores nothing; a payment that already has an aggregate fails at SaveChanges; otherwise exactly one new aggregate is stored, with one untried delivery to the payment's URL carrying the encrypted payload |
| `CompletePaymentHandlers.CompletePaymentHandler.StoreCompletion` | FinLedger/Application/Handlers/CompletePaymentHandler.cs:67-119 | the completed payment replaces its row and is what its reference finds; its events are appended in order; then the webhook step as WebhookStepDone describes |
| `CompletePaymentHandlers.CompletePaymentHandler.CompleteStored` | FinLedger/Application/Handlers/CompletePaymentHandler.cs:57-119 | a non-Pending payment is refused by MarkCompleted and nothing is written; a Pending one is completed, stored and its events appended, then the webhook step; a success is always Completed |
| `CompletePaymentHandlers.CompletePaymentHandler.Handle` | FinLedger/Application/Handlers/CompletePaymentHandler.cs:37-120 | an unknown reference gives KeyNotFoundException and writes nothing; an already Completed payment is returned unchanged (idempotent); a Failed or Cancelled one is refused; a Pending one is completed and stored whatever the webhook step then does; a success always names the Completed payment stored under the reference |
| `CompletePaymentHandlers.HardcodedKeyRefusesEveryPayload` | FinLedger/Application/Handlers/CompletePaymentHandler.cs:95 | the hard-coded key is too short for Encrypt: the set-up throws ArgumentException for every payment |
| `CompletePaymentHandlers.ConfiguredKeyEncryptsPayload` | FinLedger/Domain/ValueObjects/Money.cs:92-142 | with a key of 32 or more ASCII characters, the set-up passes and the stored payload decrypts back to the notification |
| `ReconcilePaymentsHandlers.AnyReservedOfSnoc` | FinLedger/Application/Handlers/ReconcilePaymentsHandler.cs:46-56 | a list has a payment with reserved funds exactly when its prefix or its last payment has |
| `ReconcilePaymentsHandlers.TotalCustomerBalanceSign` | FinLedger/Application/Handlers/ReconcilePaymentsHandler.cs:46-56 | over valid payments the customer total is at most zero, and zero exactly when none has reserved funds |
| `ReconcilePaymentsHandlers.TotalsNetToZero` | FinLedger/Application/Handlers/ReconcilePaymentsHandler.cs:46-56 | over valid payments the three account totals add up to zero |
| `ReconcilePaymentsHandlers.ReportIsBalancedOnlyWithoutReservations` | FinLedger/Application/Handlers/ReconcilePaymentsHandler.cs:60 | the as-written check value is twice the customer total, so it is zero exactly when no loaded payment has reserved funds |
| `ReconcilePaymentsHandlers.StatusCountsPartition` | FinLedger/Application/Handlers/ReconcilePaymentsHandler.cs:40-42 | the Pending, Completed, Failed and Cancelled counts add up to the table size |
| `ReconcilePaymentsHandlers.SnapshotOfValidTable` | FinLedger/Application/Handlers/ReconcilePaymentsHandler.cs:36-81 | the snapshot counts every payment except the Cancelled ones, reports balanced exactly when nothing is reserved, and has totals that sum to zero |
| `ReconcilePaymentsHandlers.LoadedRecordsValid` | FinLedger/Application/Handlers/ReconcilePaymentsHandler.cs:36-38 | every loaded payment is a valid payment |
| `ReconcilePaymentsHandlers.SumBalances` | FinLedger/Application/Handlers/ReconcilePaymentsHandler.cs:46-56 | the loop's three sums are the account totals over the loaded payments |
| `ReconcilePaymentsHandlers.ReconcilePaymentsHandler.constructor` | FinLedger/Application/Handlers/ReconcilePaymentsHandler.cs:19-27 | keeps the two repositories |
| `ReconcilePaymentsHandlers.ReconcilePaymentsHandler.Handle` | FinLedger/Application/Handlers/ReconcilePaymentsHandler.cs:29-95 | exactly one snapshot of the table is stored and reported; only Cancelled payments are left out of the count; the report says balanced exactly when no loaded payment has reserved funds, while the totals always sum to zero |

## Left out

- AES-256-GCM, SHA-256, UTF-8/Base64 and System.Text.Json are opaque parameters. Their internals
  are not modelled, only the properties named in the contracts.
- Entity Framework is replaced by in-memory tables:
  - change tracking, SQL, migrations and transactions are not modelled;
  - `SaveChanges` failures are modelled only for the unique indexes the handlers can violate;
  - a handler step that fails leaves the earlier steps' writes in place, as in the source.
- `PaymentRepository.UpdateAsync` throws `NotImplementedException` in the EF class. The model
  follows `IPaymentRepository.UpdateAsync` instead (see the introduction).
- Repository and store operations the core handlers do not call are not modelled:
  - `GetByIdAsync` and `GetPendingPaymentsAsync`;
  - the webhook repository's `GetByPaymentId`, `Update` and `GetWithPendingDeliveries`;
  - the reconciliation repository's `GetLatest` and `GetHistory`.
- The following are not modelled:
  - the MediatR `Publish` of `WebhookNotificationEvent`;
  - logging, cancellation tokens and concurrency between requests (each handler call is atomic in
    the model);
  - the unused `Car` class in Payment.cs.
- The pipeline that runs the validators before a handler (MediatR behaviours, Program.cs) is not
  part of this model. The handlers are therefore modelled on unvalidated commands.
  `ValidatedCommandCreatesPayment` relates the two.
- `MerchantId.New()` and `TransactionId.New()` are not modelled separately. They only call the
  constructor with `Guid.NewGuid()`, and Guids are parameters.
- `ToString` overrides and `Money`/`PaymentReference` `GetHashCode` are not modelled.
- Payments.Payment.GetAccountBalance: LINQ `Sum` over `int` throws `OverflowException` past
  int.MaxValue. The model sums exact integers. For the payments the handlers store this loses
  nothing: each is reserved once and settled at most once, so an account's sum is one 32-bit
  amount. `ReserveFunds` called k times directly on a payment of amount A, with k * A >= 2^31,
  makes the running Clearing sum pass int.MaxValue, so the source's checked Sum throws
  (`Payments.ReservingRepeatedlyOverflowsClearing`); the model returns the exact sum instead.
- IsLedgerBalancedMeansNoCustomerEntry and Payments.Payment.IsLedgerBalanced say nothing about a
  ledger whose customer balance is int.MinValue or below. Payment's own operations build such a
  ledger only from k reservations with k * A >= 2^31 ahead of any settlement, and there the
  source's checked Sum throws `OverflowException` on Clearing before the subtraction at
  Payment.cs:149 is reached. The model, whose sums are exact, does not represent that exception.
- Enums.ParseStatus: `Enum.Parse<PaymentStatus>` also accepts numeric text (including values
  outside the four members), names with surrounding white space and comma-separated lists, and
  it throws `ArgumentException` for anything else. The model parses the four member names only,
  and None stands for the exception. The Status column holds only names written by `ToString`,
  which are exactly those four.
- ReconciliationSnapshots.NewSnapshot: decimal balances are exact integers, because every value
  summed into them is an `int`.
- WebhookDeliveries.WebhookDelivery.RecordAttempt: the source reads the clock twice, for
  `LastAttemptAt` and for `NextRetryAt`. The model uses one reading for both.
- WebhookDeliveries.AfterAttempt: `DateTime.AddSeconds(Math.Pow(2, k))` throws
  `ArgumentOutOfRangeException` once the result passes `DateTime.MaxValue` (from about k = 38 with
  a large MaxRetries). The model's timestamps are unbounded integers, so that exception is not
  modelled.
- A handler takes one clock reading `now` where the source reads `DateTime.UtcNow` separately:
  - for a ledger entry's `CreatedAt` (LedgerEntry.cs:35) against the payment's `CreatedAt` or
    `CompletedAt`;
  - for each row's `CreatedAt` in one batch of appended events (EfEventStore.cs:31);
  - for a webhook aggregate's and a delivery's `CreatedAt` (WebhookAggregate.cs:27,
    WebhookDelivery.cs:33).
  Successive readings never decrease, and one reading is the case where they are all equal.
  Readings that differ are not modelled. Rows with equal `CreatedAt` have no order in SQL `ORDER BY`. The model sorts
  stably and keeps insertion order among them, and `EventStore.AppendAllThenGetEvents` relies on
  that order.
- String lengths count Unicode scalar values, not UTF-16 code units. The difference only matters
  for characters outside the Basic Multilingual Plane.
- Validators.ValidatorBoundsAmountMoreTightly and CreatePaymentHandlers.ValidatedCommandCreatesPayment
  follow directly from the other contracts and need no proof steps of their own.

## Findings

| source | as written | input that shows it | evidently intended | confidence | as-written member | corrected member |
|---|---|---|---|---|---|---|
| FinLedger/Domain/Aggregates/Payment.cs:142-150 | `IsLedgerBalanced` tests customer - clearing - merchant == 0, which is -2A (in unchecked int arithmetic) on every valid ledger once funds are reserved | any created payment of amount 100: Customer -100, Clearing +100, Merchant 0 gives -200 | the double-entry check customer + clearing + merchant == 0, which holds on every payment | not executed | `Payments.IsLedgerBalancedFailsAfterReserve` | `Payments.Payment.IsLedgerBalancedIntended` |
| FinLedger/Application/Handlers/ReconcilePaymentsHandler.cs:60 | reconciliation reports "Ledger imbalance detected" whenever any Pending, Completed or Failed payment exists, using the same formula (ReconciliationSnapshot.cs:44) | one completed payment of 100: totals -100, 0, +100 give -200 | the totals sum to zero, which holds on every valid table | not executed | `ReconcilePaymentsHandlers.ReportIsBalancedOnlyWithoutReservations` | `ReconcilePaymentsHandlers.TotalsNetToZero` |
| FinLedger/Application/Handlers/CompletePaymentHandler.cs:95 | the 15-character key "your-secret-key" fails Encrypt's 32-character check (Money.cs:96-97), after the payment was already stored Completed (under the interface's `UpdateAsync`, which the model follows) and its events appended | completing any Pending payment that has a webhook URL | a configured key of at least 32 characters, so the notification is queued | not executed | `CompletePaymentHandlers.HardcodedKeyRefusesEveryPayload` | `CompletePaymentHandlers.ConfiguredKeyEncryptsPayload` |
| FinLedger/Domain/Shared/Entity.cs:13 | the guard `Equals(id, default)` is the static object.Equals against null, so it never fires and Guid.Empty is accepted as an entity id | `id = Guid.Empty` builds an entity instead of throwing ArgumentException | `EqualityComparer<TId>.Default.Equals(id, default)`, which refuses exactly Guid.Empty; every entity in the core is built with a fresh `Guid.NewGuid()`, so the difference is not reachable from the handlers | not executed | `Entity.DefaultIdIsAccepted` | `Entity.NewEntityIntended` |
| FinLedger/Infrastructure/Repositories/EfEventStore.cs:30 | `JsonSerializer.Serialize(@event)` infers the type parameter from the static type `DomainEvent`, so only AggregateId, OccurredAt and EventVersion are stored, and reading back fills every payload property with its default | PaymentCreatedEvent(A, A, M, 100, "USD", "r1", t) reads back as PaymentCreatedEvent(A, Guid.Empty, Guid.Empty, 0, null, null, t) | `JsonSerializer.Serialize(@event, @event.GetType())`, after which a batch reads back as exactly its events | not executed | `EventStore.AppendedEventLosesPayload` | `EventStore.RuntimeTypeAppendReadsBackEvents` |
