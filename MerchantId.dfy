/** MerchantId: a strongly typed, never-empty Guid compared by value. */
module MerchantIds {
  import opened Primitives
  import opened Wrappers

  datatype MerchantId = MerchantId(value: Guid) {
    /** What the constructor guarantees of every instance. */
    predicate Valid() { value != EmptyGuid }
  }

  /** The constructor MerchantId(Guid value). */
  function NewMerchantId(value: Guid): (r: Result<MerchantId, Exception>)
    ensures r.Failure? <==> value == EmptyGuid
    ensures r.Failure? ==> r.error == InvalidOperation("Merchant ID cannot be empty")
    ensures r.Success? ==> r.value.value == value && r.value.Valid()
  {
    if value == EmptyGuid then Failure(InvalidOperation("Merchant ID cannot be empty"))
    else Success(MerchantId(value))
  }

  /** Equals(object? obj): value equality. */
  function Equals(self: MerchantId, obj: Object<MerchantId>): (r: bool)
    ensures r <==> obj == Instance(self)
  {
    obj.Instance? && self.value == obj.value.value
  }

  /** GetHashCode(): the hash of the wrapped Guid. */
  function HashCode(self: MerchantId): bv32 {
    GuidHash(self.value)
  }

  /** Equality is an equivalence and agrees with GetHashCode. */
  lemma EqualsIsEquivalence(a: MerchantId, b: MerchantId, c: MerchantId)
    ensures Equals(a, Instance(a)) && !Equals(a, Null) && !Equals(a, OtherType)
    ensures Equals(a, Instance(b)) ==> Equals(b, Instance(a)) && HashCode(a) == HashCode(b)
    ensures Equals(a, Instance(b)) && Equals(b, Instance(c)) ==> Equals(a, Instance(c))
  {
  }
}
