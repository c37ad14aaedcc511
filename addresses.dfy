/** Addresses of the 16-bit address space, as the integers the decoders compare and subtract. */
module Addresses {
  /** A `uint16_t` address. */
  type Addr = a: int | 0 <= a < 0x10000

  /** The address after `a`, wrapping from 0xFFFF to 0x0000 as `uint16_t` addition does. */
  function Next(a: Addr): (n: Addr)
    ensures a < 0xFFFF ==> n == a + 1
    ensures a == 0xFFFF ==> n == 0
  {
    (a + 1) % 0x10000
  }
}
