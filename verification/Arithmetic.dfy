/** Integer arithmetic shared by scores, decimals and returns. */
module Arithmetic {

  /** Integer division that drops the fraction, whatever the sign. */
  function Truncated(n: int, d: int): int
    requires d > 0
  {
    if n >= 0 then n / d else -(-n / d)
  }
}
