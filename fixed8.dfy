/** Fixed8 arithmetic used by the invocation handler: integers scaled by 10^8. */
module Fixed8 {

  /** `Fixed8.One`: one whole unit in base units. */
  const One: int := 100_000_000

  /** `Fixed8.FromDecimal(10)`: the gas an invocation gets for free. */
  const FreeGas: int := 10 * One

  function Max(a: int, b: int): int {
    if a < b then b else a
  }

  /** `Fixed8.Ceiling`: the value rounded up to a whole unit. */
  function Ceiling(x: int): (r: int)
    ensures r % One == 0
    ensures x <= r < x + One
  {
    if x % One == 0 then x else x - x % One + One
  }

  /** No whole multiple of a unit at or above `x` lies below `Ceiling(x)`. */
  lemma CeilingIsLeast(x: int, m: int)
    requires m % One == 0 && x <= m
    ensures Ceiling(x) <= m
  {
    var r := Ceiling(x);
    var a, b := r / One, m / One;
    assert r == One * a;
    assert m == One * b;
  }

  /**
    The gas the invocation handler charges for `consumed` gas: the free allowance is
    subtracted, a negative result is clamped to zero, and the rest is rounded up to a
    whole unit.
   */
  function InvokeGas(consumed: int): (gas: int)
    ensures gas >= 0
    ensures gas % One == 0
    ensures gas >= consumed - FreeGas
    ensures gas < Max(0, consumed - FreeGas) + One
  {
    Ceiling(Max(0, consumed - FreeGas))
  }

  /** Within the free allowance nothing is charged. */
  lemma InvokeGasFree(consumed: int)
    requires consumed <= FreeGas
    ensures InvokeGas(consumed) == 0
  {
    CeilingIsLeast(0, 0);
  }

  /** Consuming more never lowers the charge. */
  lemma InvokeGasMonotonic(c1: int, c2: int)
    requires c1 <= c2
    ensures InvokeGas(c1) <= InvokeGas(c2)
  {
    CeilingIsLeast(Max(0, c1 - FreeGas), InvokeGas(c2));
  }

  /** The charge is the least whole amount that covers what exceeds the allowance. */
  lemma InvokeGasIsLeast(consumed: int, m: int)
    requires m >= 0 && m % One == 0 && m >= consumed - FreeGas
    ensures InvokeGas(consumed) <= m
  {
    CeilingIsLeast(Max(0, consumed - FreeGas), m);
  }
}
