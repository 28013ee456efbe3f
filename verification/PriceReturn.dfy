/** The return of an asset between two prices (crates/protocol/src/lib.rs), in units of one billionth. */
module PriceReturn {
  import opened Wrappers
  import opened Arithmetic

  const RETURN_SCALE_Q9 := 1_000_000_000
  const I64_MAX := 0x7fff_ffff_ffff_ffff

  function ReturnQ9(start: int, end: int): Option<int> {
    if start <= 0 || end <= 0 then None
    else
      var value := Truncated((end - start) * RETURN_SCALE_Q9, start);
      if -I64_MAX - 1 <= value <= I64_MAX then Some(value) else None
  }

  /** The return of positive prices exists exactly when the end price is less than 2^63 billionths
      above the start price; it is at least minus one. */
  lemma ReturnExactly(start: int, end: int)
    requires start > 0 && end > 0
    ensures ReturnQ9(start, end).Some? <==> (end - start) * RETURN_SCALE_Q9 < start * (I64_MAX + 1)
    ensures ReturnQ9(start, end).Some? ==> ReturnQ9(start, end).value >= -RETURN_SCALE_Q9
  {
    var n := (end - start) * RETURN_SCALE_Q9;
    if n >= 0 {
      QuotientBelow(n, start, I64_MAX + 1);
    } else {
      QuotientBelow(-n, start, RETURN_SCALE_Q9 + 1);
    }
  }

  /** It is the change over the start price, in billionths, its fraction dropped. */
  lemma ReturnIs(start: int, end: int)
    requires ReturnQ9(start, end).Some?
    ensures start > 0 && end > 0
    ensures var r, n := ReturnQ9(start, end).value, (end - start) * 1_000_000_000;
            && (end >= start ==> r >= 0 && start * r <= n < start * r + start)
            && (end <= start ==> r <= 0 && start * r - start < n <= start * r)
  {
    var n := (end - start) * RETURN_SCALE_Q9;
    if n >= 0 { QuotientIs(n, start); } else { QuotientIs(-n, start); }
  }

  lemma QuotientIs(n: nat, d: nat)
    requires d > 0
    ensures n / d >= 0 && d * (n / d) <= n < d * (n / d) + d
  {
  }

  lemma QuotientBelow(n: nat, d: nat, bound: nat)
    requires d > 0
    ensures n / d < bound <==> n < d * bound
  {
    var q, r := n / d, n % d;
    assert n == q * d + r;
    if q < bound { Spread(d, q, bound); } else { Spread(d, bound, q + 1); }
  }

  lemma Spread(d: nat, low: nat, high: nat)
    requires low < high
    ensures d * high >= d * low + d
  {
    var gap := high - low - 1;
    ProductNonNegative(d, gap);
    assert high == low + 1 + gap;
    assert d * high == d * low + d + d * gap;
  }

  lemma ProductNonNegative(x: nat, y: nat)
    ensures x * y >= 0
  {
  }

  /** An unchanged price has return zero. */
  lemma NoChange(price: int)
    requires price > 0
    ensures ReturnQ9(price, price) == Some(0)
  {
  }
}
