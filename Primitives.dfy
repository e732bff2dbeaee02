/** The .NET primitives the domain is written against: Guid, 32-bit int,
    DateTime, string.IsNullOrWhiteSpace and the exception types the core throws. */
module Primitives {

  /** A System.Guid, as the 128-bit number whose little-endian bytes are the
      Guid's 16-byte memory image. */
  type Guid = g: int | 0 <= g < 0x1_0000_0000_0000_0000_0000_0000_0000_0000

  /** Guid.Empty, the default value of the Guid struct. */
  const EmptyGuid: Guid := 0

  /** The i-th 32-bit word (0..3) of a Guid's memory image. */
  function GuidWord(g: Guid, i: nat): bv32
    requires i < 4
  {
    var shift := if i == 0 then 1 else if i == 1 then 0x1_0000_0000
                 else if i == 2 then 0x1_0000_0000_0000_0000
                 else 0x1_0000_0000_0000_0000_0000_0000;
    ((g / shift) % 0x1_0000_0000) as bv32
  }

  /** Guid.GetHashCode: the XOR of the four 32-bit words of the Guid. */
  function GuidHash(g: Guid): bv32 {
    GuidWord(g, 0) ^ GuidWord(g, 1) ^ GuidWord(g, 2) ^ GuidWord(g, 3)
  }

  const Int32Min: int := -0x8000_0000
  const Int32Max: int := 0x7FFF_FFFF

  /** A C# `int`. */
  type Int32 = x: int | Int32Min <= x <= Int32Max

  /** The value an unchecked C# `int` operation leaves when the exact result is x. */
  function Wrap32(x: int): (r: Int32)
    ensures Int32Min <= x <= Int32Max ==> r == x
    ensures Int32Max < x <= 2 * Int32Max + 1 ==> r == x - 0x1_0000_0000
    ensures 2 * Int32Min <= x < Int32Min ==> r == x + 0x1_0000_0000
    ensures r == 0 <==> x % 0x1_0000_0000 == 0
  {
    (x - Int32Min) % 0x1_0000_0000 + Int32Min
  }

  /** A DateTime, as its count of 100-nanosecond ticks. */
  type Timestamp = int

  /** DateTime.AddSeconds(1) advances a DateTime by this many ticks. */
  const TicksPerSecond: int := 10_000_000

  /** char.IsWhiteSpace: the Unicode separators plus U+0009..U+000D, U+0085 and U+00A0. */
  predicate IsWhiteSpace(c: char) {
    ('\U{0009}' <= c <= '\U{000D}') || c == ' ' || c == '\U{0085}' || c == '\U{00A0}'
    || c == '\U{1680}' || ('\U{2000}' <= c <= '\U{200A}') || c == '\U{2028}' || c == '\U{2029}'
    || c == '\U{202F}' || c == '\U{205F}' || c == '\U{3000}'
  }

  /** string.IsNullOrWhiteSpace for a non-null string: empty, or white space only. */
  predicate IsBlank(s: string) {
    forall i :: 0 <= i < |s| ==> IsWhiteSpace(s[i])
  }

  /** The exceptions the core throws, each with the message its throw site gives. */
  datatype Exception =
    | InvalidOperation(message: string)
    | Argument(message: string, paramName: string)
    | ArgumentNull(paramName: string)
    | KeyNotFound(message: string)
    | Cryptographic(message: string)
    | Format(message: string)
    | DbUpdate(message: string)
}
