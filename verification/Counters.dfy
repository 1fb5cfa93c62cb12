/** Fixed-width unsigned integers and the counters the firmware saturates. */
module Counters {
  const UINT32_MAX: nat := 0xFFFF_FFFF
  const UINT64_MAX: nat := 0xFFFF_FFFF_FFFF_FFFF

  type uint32 = n: nat | n <= 0xFFFF_FFFF
  type uint64 = n: nat | n <= 0xFFFF_FFFF_FFFF_FFFF

  function SaturatingIncrement(value: uint32): (r: uint32)
    ensures value <= r
    ensures r == value <==> value == UINT32_MAX
  {
    if value < UINT32_MAX then value + 1 else value
  }

  function Min(a: int, b: int): (r: int) {
    if a < b then a else b
  }

  datatype Option<+T> = None | Some(value: T)
}
