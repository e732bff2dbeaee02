/** TransactionId: a strongly typed, never-empty Guid compared by value. */
module TransactionIds {
  import opened Primitives
  import opened Wrappers

  datatype TransactionId = TransactionId(value: Guid) {
    /** What the constructor guarantees of every instance. */
    predicate Valid() { value != EmptyGuid }
  }

  /** The constructor TransactionId(Guid value). */
  function NewTransactionId(value: Guid): (r: Result<TransactionId, Exception>)
    ensures r.Failure? <==> value == EmptyGuid
    ensures r.Failure? ==> r.error == InvalidOperation("Transaction ID cannot be empty")
    ensures r.Success? ==> r.value.value == value && r.value.Valid()
  {
    if value == EmptyGuid then Failure(InvalidOperation("Transaction ID cannot be empty"))
    else Success(TransactionId(value))
  }

  /** Equals(object? obj): value equality. */
  function Equals(self: TransactionId, obj: Object<TransactionId>): (r: bool)
    ensures r <==> obj == Instance(self)
  {
    obj.Instance? && self.value == obj.value.value
  }

  /** GetHashCode(): the hash of the wrapped Guid. */
  function HashCode(self: TransactionId): bv32 {
    GuidHash(self.value)
  }

  /** Equality is an equivalence and agrees with GetHashCode. */
  lemma EqualsIsEquivalence(a: TransactionId, b: TransactionId, c: TransactionId)
    ensures Equals(a, Instance(a)) && !Equals(a, Null) && !Equals(a, OtherType)
    ensures Equals(a, Instance(b)) ==> Equals(b, Instance(a)) && HashCode(a) == HashCode(b)
    ensures Equals(a, Instance(b)) && Equals(b, Instance(c)) ==> Equals(a, Instance(c))
  {
  }
}
