/**
 * Go's fixed-width integer types, the truncating conversions between them,
 * and the Option/Result wrappers the rest of the model returns.
 */
module GoTypes {

  type Int64 = x: int | -0x8000_0000_0000_0000 <= x < 0x8000_0000_0000_0000
  type UInt8 = x: int | 0 <= x < 0x100
  type UInt16 = x: int | 0 <= x < 0x1_0000
  type UInt32 = x: int | 0 <= x < 0x1_0000_0000
  type UInt64 = x: int | 0 <= x < 0x1_0000_0000_0000_0000

  /** A byte of a Go `[]byte` or of a Go `string` (which holds UTF-8 bytes). */
  type Byte = UInt8

  datatype Option<+T> = None | Some(value: T) {
    function GetOr(default: T): T {
      match this
      case Some(v) => v
      case None => default
    }
  }

  datatype Result<+T, +E> = Ok(value: T) | Err(error: E)

  /** `uint8(x)`: keeps the low 8 bits of the two's-complement value. */
  function Uint8Of(x: Int64): (r: UInt8)
    ensures 0 <= x < 0x100 ==> r == x
    ensures (x - r) % 0x100 == 0
  {
    x % 0x100
  }

  /** `uint16(x)`: keeps the low 16 bits. */
  function Uint16Of(x: Int64): (r: UInt16)
    ensures 0 <= x < 0x1_0000 ==> r == x
    ensures (x - r) % 0x1_0000 == 0
  {
    x % 0x1_0000
  }

  /** `uint32(x)`: keeps the low 32 bits. */
  function Uint32Of(x: Int64): (r: UInt32)
    ensures 0 <= x < 0x1_0000_0000 ==> r == x
    ensures (x - r) % 0x1_0000_0000 == 0
  {
    x % 0x1_0000_0000
  }

  /** `uint64(x)`: a negative value wraps to x + 2^64. */
  function Uint64Of(x: Int64): (r: UInt64)
    ensures 0 <= x ==> r == x
    ensures x < 0 ==> r == x + 0x1_0000_0000_0000_0000
  {
    x % 0x1_0000_0000_0000_0000
  }

  /** A Go `[N]byte{}`: N zero bytes. */
  function Zeros(n: nat): (r: seq<Byte>)
    ensures |r| == n
    ensures forall i :: 0 <= i < n ==> r[i] == 0
  {
    seq(n, _ => 0)
  }
}
