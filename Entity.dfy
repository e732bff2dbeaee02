/** Entity<TId>: identity and identity-only equality shared by every entity
    class of the domain (all of them use a Guid id). */
module Entity {
  import opened Primitives
  import opened Wrappers

  /** The concrete classes that derive from Entity<Guid>. */
  datatype EntityKind =
    | PaymentKind
    | LedgerEntryKind
    | WebhookDeliveryKind
    | WebhookAggregateKind
    | ReconciliationSnapshotKind

  /** A non-null entity as its equality members see it: its concrete class and its Id. */
  datatype EntityRef = EntityRef(kind: EntityKind, id: Guid)

  /** What `Equals(object? obj)` may be handed: null, an entity, or an object of an unrelated type. */
  datatype Obj = NullObj | AnEntity(entity: EntityRef) | Unrelated

  /** A value converted to `object?`: null, or a boxed Guid. */
  datatype Boxed = NullRef | BoxedGuid(value: Guid)

  /** The static object.Equals(objA, objB): two nulls are equal, a null and a non-null are not,
      otherwise objA.Equals(objB), which for boxed Guids compares the values. */
  function StaticObjectEquals(a: Boxed, b: Boxed): (r: bool)
    ensures a.NullRef? != b.NullRef? ==> !r
    ensures r <==> a == b
  {
    if a.NullRef? || b.NullRef? then a.NullRef? && b.NullRef? else a.value == b.value
  }

  /** The protected constructor Entity(TId id), as written. Its guard `Equals(id, default)` has two
      arguments, so it is the static object.Equals, and `default` converted to `object?` is null.
      A boxed Guid is never null, so the guard never fires and no id is refused. */
  function NewEntity(kind: EntityKind, id: Guid): (r: Result<EntityRef, Exception>)
    ensures r == Success(EntityRef(kind, id))
  {
    if StaticObjectEquals(BoxedGuid(id), NullRef) then Failure(Argument("Id cannot be default value", "id"))
    else Success(EntityRef(kind, id))
  }

  /** The guard as evidently intended, EqualityComparer<TId>.Default.Equals(id, default): the
      empty Guid is refused, and every other id is accepted as the written constructor accepts it. */
  function NewEntityIntended(kind: EntityKind, id: Guid): (r: Result<EntityRef, Exception>)
    ensures r.Failure? <==> id == EmptyGuid
    ensures r.Failure? ==> r.error == Argument("Id cannot be default value", "id")
    ensures r.Success? ==> r == NewEntity(kind, id)
  {
    if StaticObjectEquals(BoxedGuid(id), BoxedGuid(EmptyGuid)) then Failure(Argument("Id cannot be default value", "id"))
    else Success(EntityRef(kind, id))
  }

  /** The two guards differ exactly on the empty Guid: the written one accepts it as an id. */
  lemma DefaultIdIsAccepted(kind: EntityKind, id: Guid)
    ensures NewEntity(kind, id).Success?
    ensures NewEntity(kind, id) != NewEntityIntended(kind, id) <==> id == EmptyGuid
  {
  }

  /** Equals(Entity<TId>? other), null being None. */
  function EqualsEntity(self: EntityRef, other: Option<EntityRef>): (r: bool)
    ensures other == Some(self) ==> r
    ensures other.None? ==> !r
    ensures r ==> HashCode(self) == HashCode(other.value)
  {
    other.Some? && self.id == other.value.id
  }

  /** Equals(object? obj): any Entity<Guid> is compared by id, whatever its concrete class. */
  function EqualsObject(self: EntityRef, obj: Obj): (r: bool)
    ensures r ==> obj.AnEntity?
    ensures obj.AnEntity? ==> (r <==> EqualsEntity(self, Some(obj.entity)))
  {
    obj.AnEntity? && EqualsEntity(self, Some(obj.entity))
  }

  /** operator ==, that is object.Equals(left, right): true for the same reference (so for two
      nulls), false when exactly one side is null, otherwise left.Equals((object)right).
      A reference equal to itself has its own id, so the reference shortcut agrees with Equals. */
  function OpEquals(left: Option<EntityRef>, right: Option<EntityRef>): (r: bool)
    ensures r <==> (left.None? && right.None?) || (left.Some? && right.Some? && left.value.id == right.value.id)
  {
    if left.None? && right.None? then true
    else if left.None? || right.None? then false
    else EqualsObject(left.value, AnEntity(right.value))
  }

  /** operator !=, written in the source as !Equals(left, right). */
  function OpNotEquals(left: Option<EntityRef>, right: Option<EntityRef>): (r: bool)
    ensures r <==> (left.None? != right.None?) || (left.Some? && right.Some? && left.value.id != right.value.id)
  {
    !OpEquals(left, right)
  }

  /** GetHashCode(): the hash of the id. */
  function HashCode(self: EntityRef): bv32
  {
    GuidHash(self.id)
  }

  /** != is the exact negation of ==. */
  lemma OpNotEqualsIsNegation(left: Option<EntityRef>, right: Option<EntityRef>)
    ensures OpNotEquals(left, right) != OpEquals(left, right)
  {
  }

  /** Equals is reflexive, symmetric and transitive on non-null entities, and false for null. */
  lemma EqualsIsEquivalence(a: EntityRef, b: EntityRef, c: EntityRef)
    ensures EqualsEntity(a, Some(a))
    ensures EqualsEntity(a, Some(b)) ==> EqualsEntity(b, Some(a))
    ensures EqualsEntity(a, Some(b)) && EqualsEntity(b, Some(c)) ==> EqualsEntity(a, Some(c))
    ensures !EqualsEntity(a, None) && !EqualsObject(a, NullObj) && !EqualsObject(a, Unrelated)
  {
  }

  /** Entities of different concrete classes that share an id compare equal. */
  lemma DifferentKindsSameIdAreEqual(id: Guid)
    ensures EqualsObject(EntityRef(PaymentKind, id), AnEntity(EntityRef(WebhookAggregateKind, id)))
    ensures OpEquals(Some(EntityRef(LedgerEntryKind, id)), Some(EntityRef(ReconciliationSnapshotKind, id)))
  {
  }

  /** Equal entities have equal hash codes, whatever their concrete classes. */
  lemma EqualEntitiesHashAlike(a: EntityRef, b: EntityRef)
    requires EqualsObject(a, AnEntity(b))
    ensures HashCode(a) == HashCode(b)
  {
  }
}
