/** The machine integers of the two languages, with their wrap-around written out. */
module Integers {

  type Int32 = n: int | -0x8000_0000 <= n < 0x8000_0000

  const MAX_INT64: int := 0x7fff_ffff_ffff_ffff
  const MAX_UINT64: nat := 0xffff_ffff_ffff_ffff

  /** Conversion to int32. */
  function AsInt32(n: int): (r: Int32)
    ensures -0x8000_0000 <= n < 0x8000_0000 ==> r == n
  {
    var m := n % 0x1_0000_0000;
    if m < 0x8000_0000 then m else m - 0x1_0000_0000
  }

  /** Sign extension to 64 bits. */
  function AsUint64(n: Int32): (r: nat)
    ensures r <= MAX_UINT64 && AsInt32(r) == n
  {
    if n < 0 then n + MAX_UINT64 + 1 else n
  }

  /** Conversion to int64. */
  function Wrap64(n: int): (r: int)
    ensures -MAX_INT64 - 1 <= r <= MAX_INT64
    ensures -MAX_INT64 - 1 <= n <= MAX_INT64 ==> r == n
  {
    var m := n % 0x1_0000_0000_0000_0000;
    if m <= MAX_INT64 then m else m - 0x1_0000_0000_0000_0000
  }
}
