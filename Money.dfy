/** The value objects: Money, PaymentReference and EncryptedPayload. Each is
    immutable; its constructor validates and throws, modelled as a Result. */
module ValueObjects {
  import opened Primitives
  import opened Wrappers

  // ---------------------------------------------------------------- Money

  /** The only currency check the constructor makes: non-blank and three characters long. */
  predicate ValidCurrency(currency: string) {
    !IsBlank(currency) && |currency| == 3
  }

  datatype Money = Money(amount: Int32, currency: string) {
    /** What the constructor guarantees of every instance. */
    predicate Valid() { amount >= 0 && ValidCurrency(currency) }

    /** IsPositive: for a constructed Money, exactly the amounts that are not zero. */
    predicate IsPositive()
      ensures Valid() ==> (IsPositive() <==> !IsZero())
    {
      amount > 0
    }

    /** IsZero: a zero amount is the identity of addition in its currency. */
    predicate IsZero()
      ensures IsZero() ==> forall m: Money :: m.Valid() && Valid() && m.currency == currency ==> Add(m, this) == Success(m)
    {
      amount == 0
    }
  }

  /** The constructor Money(int amount, string currency). */
  function NewMoney(amount: Int32, currency: string): (r: Result<Money, Exception>)
    ensures r.Success? <==> amount >= 0 && ValidCurrency(currency)
    ensures amount < 0 ==> r == Failure(InvalidOperation("Amount cannot be negative"))
    ensures amount >= 0 && !ValidCurrency(currency) ==>
              r == Failure(InvalidOperation("Currency must be 3 characters (ISO 4217)"))
    ensures r.Success? ==> r.value.Valid() && r.value.amount == amount && r.value.currency == currency
  {
    if amount < 0 then Failure(InvalidOperation("Amount cannot be negative"))
    else if IsBlank(currency) || |currency| != 3 then
      Failure(InvalidOperation("Currency must be 3 characters (ISO 4217)"))
    else Success(Money(amount, currency))
  }

  /** operator +. The sum is an unchecked 32-bit addition handed to the constructor, so a
      sum beyond int.MaxValue wraps to a negative amount and is refused as negative. */
  function Add(a: Money, b: Money): (r: Result<Money, Exception>)
    requires a.Valid() && b.Valid()
    ensures a.currency != b.currency ==> r == Failure(InvalidOperation("Cannot add different currencies"))
    ensures a.currency == b.currency && a.amount + b.amount > Int32Max ==>
              r == Failure(InvalidOperation("Amount cannot be negative"))
    ensures r.Success? <==> a.currency == b.currency && a.amount + b.amount <= Int32Max
    ensures r.Success? ==>
              r.value.Valid() && r.value.amount == a.amount + b.amount && r.value.currency == a.currency
  {
    if a.currency != b.currency then Failure(InvalidOperation("Cannot add different currencies"))
    else NewMoney(Wrap32(a.amount + b.amount), a.currency)
  }

  /** Equals(object? obj): amount and currency both match. */
  function MoneyEquals(self: Money, obj: Object<Money>): (r: bool)
    ensures r <==> obj == Instance(self)
  {
    obj.Instance? && self.amount == obj.value.amount && self.currency == obj.value.currency
  }

  /** IsPositive and IsZero never hold together, and a constructed Money has exactly one of them. */
  lemma PositiveAndZeroExclusive(m: Money)
    ensures !(m.IsPositive() && m.IsZero())
    ensures m.Valid() ==> (m.IsPositive() || m.IsZero())
  {
  }

  /** Money equality is reflexive and symmetric. */
  lemma MoneyEqualsIsEquivalence(a: Money, b: Money)
    ensures MoneyEquals(a, Instance(a)) && !MoneyEquals(a, Null) && !MoneyEquals(a, OtherType)
    ensures MoneyEquals(a, Instance(b)) ==> MoneyEquals(b, Instance(a))
  {
  }

  /** Addition commutes, including whether it fails. */
  lemma AddCommutes(a: Money, b: Money)
    requires a.Valid() && b.Valid()
    ensures Add(a, b).Success? == Add(b, a).Success?
    ensures Add(a, b).Success? ==> Add(a, b) == Add(b, a)
  {
  }

  /** Adding a zero amount of the same currency gives the same Money back. */
  lemma AddZeroIsIdentity(a: Money)
    requires a.Valid()
    ensures Add(a, Money(0, a.currency)) == Success(a)
  {
  }

  /** Addition of one currency associates: both groupings succeed, or both fail, with the same sum. */
  lemma AddAssociates(a: Money, b: Money, c: Money)
    requires a.Valid() && b.Valid() && c.Valid()
    requires a.currency == b.currency == c.currency
    ensures var left := if Add(a, b).Success? then Add(Add(a, b).value, c) else Add(a, b);
            var right := if Add(b, c).Success? then Add(a, Add(b, c).value) else Add(b, c);
            left.Success? == right.Success? && (left.Success? ==> left == right)
  {
  }

  // ---------------------------------------------------------------- PaymentReference

  /** PaymentReference: the idempotency key. */
  datatype PaymentReference = PaymentReference(value: string) {
    /** What the constructor guarantees of every instance. */
    predicate Valid() { !IsBlank(value) && |value| <= 50 }
  }

  /** The constructor PaymentReference(string value). */
  function NewPaymentReference(value: string): (r: Result<PaymentReference, Exception>)
    ensures r.Success? <==> !IsBlank(value) && |value| <= 50
    ensures r.Failure? ==> r.error == InvalidOperation("Payment reference must be 1-50 characters")
    ensures r.Success? ==> r.value.value == value && r.value.Valid()
  {
    if IsBlank(value) || |value| > 50 then Failure(InvalidOperation("Payment reference must be 1-50 characters"))
    else Success(PaymentReference(value))
  }

  /** Equals(object? obj): equality of the wrapped strings. */
  function ReferenceEquals(self: PaymentReference, obj: Object<PaymentReference>): (r: bool)
    ensures r <==> obj == Instance(self)
  {
    obj.Instance? && self.value == obj.value.value
  }

  // ---------------------------------------------------------------- EncryptedPayload

  /** EncryptedPayload: the Base64 text of an AES-256-GCM ciphertext, its nonce and its tag. */
  datatype EncryptedPayload = EncryptedPayload(cipherText: string, nonce: string, tag: string) {
    /** What the constructor guarantees of every instance. */
    predicate Valid() { !IsBlank(cipherText) && !IsBlank(nonce) && !IsBlank(tag) }
  }

  /** The constructor EncryptedPayload(cipherText, nonce, tag): each part must be non-blank,
      checked in that order. */
  function NewEncryptedPayload(cipherText: string, nonce: string, tag: string): (r: Result<EncryptedPayload, Exception>)
    ensures r.Success? <==> !IsBlank(cipherText) && !IsBlank(nonce) && !IsBlank(tag)
    ensures IsBlank(cipherText) ==> r == Failure(Argument("Cipher text required", "cipherText"))
    ensures !IsBlank(cipherText) && IsBlank(nonce) ==> r == Failure(Argument("Nonce required", "nonce"))
    ensures !IsBlank(cipherText) && !IsBlank(nonce) && IsBlank(tag) ==> r == Failure(Argument("Tag required", "tag"))
    ensures r.Success? ==> r.value == EncryptedPayload(cipherText, nonce, tag) && r.value.Valid()
  {
    if IsBlank(cipherText) then Failure(Argument("Cipher text required", "cipherText"))
    else if IsBlank(nonce) then Failure(Argument("Nonce required", "nonce"))
    else if IsBlank(tag) then Failure(Argument("Tag required", "tag"))
    else Success(EncryptedPayload(cipherText, nonce, tag))
  }

  /** What the AES-GCM primitive does when asked to open a payload: the plaintext, or the
      exception it throws (CryptographicException when the tag does not authenticate,
      FormatException for text that is not Base64, ArgumentException for a nonce or tag of
      the wrong size). */
  datatype OpenOutcome = Opened(plaintext: string) | Threw(exception: Exception)

  /** The AES-256-GCM cipher together with the UTF-8 and Base64 conversions around it, which
      the model does not look inside. `seal(key, nonce, plaintext)` gives the Base64 ciphertext
      and tag; `open(key, nonce, cipherText, tag)` reverses it. Keys are the 32 key characters
      actually used; nonces are the Base64 text of the 12 random bytes. */
  datatype Aead = Aead(
    seal: (string, string, string) -> (string, string),
    open: (string, string, string, string) -> OpenOutcome)

  /** What AES-GCM guarantees: opening a sealed payload with the same key and nonce gives the
      plaintext back, and sealing a non-blank plaintext gives non-empty Base64 text. */
  ghost predicate Sound(aead: Aead) {
    forall key, nonce, plaintext {:trigger aead.seal(key, nonce, plaintext)} ::
      var sealed := aead.seal(key, nonce, plaintext);
      && aead.open(key, nonce, sealed.0, sealed.1) == Opened(plaintext)
      && (!IsBlank(plaintext) ==> !IsBlank(sealed.0) && !IsBlank(sealed.1))
  }

  /** What authentication guarantees: a payload opens only if it is the sealing of what it opens to. */
  ghost predicate Authenticating(aead: Aead) {
    forall key, nonce, cipherText, tag {:trigger aead.open(key, nonce, cipherText, tag)} ::
      aead.open(key, nonce, cipherText, tag).Opened? ==>
        aead.seal(key, nonce, aead.open(key, nonce, cipherText, tag).plaintext) == (cipherText, tag)
  }

  /** Encoding.UTF8.GetBytes(key.PadRight(32)[..32]) is a 256-bit AES key exactly when those
      32 characters are ASCII; any other character takes more than one byte and AesGcm refuses
      the key size. */
  predicate AsciiKey(keyChars: string) {
    forall i :: 0 <= i < |keyChars| ==> keyChars[i] < '\U{0080}'
  }

  const KeySizeMessage: string := "Specified key is not a valid size for this algorithm."
  const ShortKeyMessage: string := "Key must be at least 32 characters"
  const TamperedMessage: string := "Decryption failed - payload may be tampered"

  /** EncryptedPayload.Encrypt(plaintext, key), the random nonce being supplied by the caller. */
  function Encrypt(plaintext: string, key: string, nonce: string, aead: Aead): (r: Result<EncryptedPayload, Exception>)
    requires !IsBlank(nonce)
    ensures IsBlank(plaintext) ==> r == Failure(Argument("Plaintext required", "plaintext"))
    ensures !IsBlank(plaintext) && (IsBlank(key) || |key| < 32) ==> r == Failure(Argument(ShortKeyMessage, "key"))
    ensures !IsBlank(plaintext) && !IsBlank(key) && |key| >= 32 && !AsciiKey(key[..32]) ==>
              r == Failure(Cryptographic(KeySizeMessage))
    ensures Sound(aead) ==>
              (r.Success? <==> !IsBlank(plaintext) && !IsBlank(key) && |key| >= 32 && AsciiKey(key[..32]))
    ensures r.Success? ==> r.value.Valid() && r.value.nonce == nonce
  {
    if IsBlank(plaintext) then Failure(Argument("Plaintext required", "plaintext"))
    else if IsBlank(key) || |key| < 32 then Failure(Argument(ShortKeyMessage, "key"))
    else if !AsciiKey(key[..32]) then Failure(Cryptographic(KeySizeMessage))
    else
      var sealed := aead.seal(key[..32], nonce, plaintext);
      NewEncryptedPayload(sealed.0, nonce, sealed.1)
  }

  /** EncryptedPayload.Decrypt(key). Inside the try block a CryptographicException (a refused key
      size or a failed authentication) becomes an InvalidOperationException; other exceptions
      of the primitive escape unchanged. */
  function Decrypt(payload: EncryptedPayload, key: string, aead: Aead): (r: Result<string, Exception>)
    ensures IsBlank(key) || |key| < 32 ==> r == Failure(Argument(ShortKeyMessage, "key"))
    ensures !IsBlank(key) && |key| >= 32 && !AsciiKey(key[..32]) ==> r == Failure(InvalidOperation(TamperedMessage))
    ensures !IsBlank(key) && |key| >= 32 && AsciiKey(key[..32]) ==>
              var outcome := aead.open(key[..32], payload.nonce, payload.cipherText, payload.tag);
              && (outcome.Threw? && outcome.exception.Cryptographic? ==> r == Failure(InvalidOperation(TamperedMessage)))
              && (outcome.Threw? && !outcome.exception.Cryptographic? ==> r == Failure(outcome.exception))
              && (outcome.Opened? ==> r == Success(outcome.plaintext))
    ensures r.Failure? ==> !r.error.Cryptographic?
    ensures r.Success? ==> aead.open(key[..32], payload.nonce, payload.cipherText, payload.tag) == Opened(r.value)
  {
    if IsBlank(key) || |key| < 32 then Failure(Argument(ShortKeyMessage, "key"))
    else if !AsciiKey(key[..32]) then Failure(InvalidOperation(TamperedMessage))
    else match aead.open(key[..32], payload.nonce, payload.cipherText, payload.tag)
      case Opened(plaintext) => Success(plaintext)
      case Threw(e) => if e.Cryptographic? then Failure(InvalidOperation(TamperedMessage)) else Failure(e)
  }

  /** Only the first 32 key characters are used: keys that share them encrypt identically. */
  lemma KeysSharingPrefixAreInterchangeable(plaintext: string, payload: EncryptedPayload, key1: string, key2: string, nonce: string, aead: Aead)
    requires !IsBlank(nonce)
    requires |key1| >= 32 && |key2| >= 32 && key1[..32] == key2[..32]
    requires !IsBlank(key1) && !IsBlank(key2)
    ensures Encrypt(plaintext, key1, nonce, aead) == Encrypt(plaintext, key2, nonce, aead)
    ensures Decrypt(payload, key1, aead) == Decrypt(payload, key2, aead)
  {
  }

  /** Round trip: what Encrypt produces, Decrypt with any key sharing the 32 used characters
      turns back into the plaintext. */
  lemma DecryptInvertsEncrypt(plaintext: string, key: string, otherKey: string, nonce: string, aead: Aead)
    requires Sound(aead) && !IsBlank(nonce)
    requires Encrypt(plaintext, key, nonce, aead).Success?
    requires |otherKey| >= 32 && !IsBlank(otherKey) && otherKey[..32] == key[..32]
    ensures Decrypt(Encrypt(plaintext, key, nonce, aead).value, otherKey, aead) == Success(plaintext)
  {
    var sealed := aead.seal(key[..32], nonce, plaintext);
    assert aead.open(key[..32], nonce, sealed.0, sealed.1) == Opened(plaintext);
  }

  /** Integrity: with an authenticating cipher, a payload that decrypts is exactly what Encrypt
      makes of that plaintext under that key and nonce; anything altered fails to decrypt. */
  lemma DecryptAcceptsOnlySealedPayloads(payload: EncryptedPayload, key: string, aead: Aead)
    requires Authenticating(aead) && payload.Valid()
    requires Decrypt(payload, key, aead).Success?
    ensures var plaintext := Decrypt(payload, key, aead).value;
            IsBlank(plaintext) || Encrypt(plaintext, key, payload.nonce, aead) == Success(payload)
  {
    var outcome := aead.open(key[..32], payload.nonce, payload.cipherText, payload.tag);
    assert outcome.Opened?;
  }
}
