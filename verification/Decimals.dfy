/** Fixed-point amounts. A stored NUMERIC(20,6) amount is an integer count of
    10^-6 ("micro") units; a product of two stored amounts is exact in 10^-12
    ("pico") units until somebody rounds it. */
module Decimals {

  const MICRO: int := 1_000_000

  /** `Decimal.quantize(0.000001, ROUND_HALF_EVEN)` on an exact amount. */
  function RoundHalfEven(pico: int): (micro: int)
  {
    var floor, rest := pico / MICRO, pico % MICRO;
    if 2 * rest < MICRO || (2 * rest == MICRO && floor % 2 == 0) then floor else floor + 1
  }

  /** PostgreSQL's coercion into NUMERIC(20,6): nearest, ties away from zero. */
  function RoundToColumn(pico: nat): (micro: nat)
  {
    (2 * pico + MICRO) / (2 * MICRO)
  }

  /** `micro` is a nearest grid point of `pico`, and an even one on a tie. */
  ghost predicate NearestEven(pico: int, micro: int) {
    && -MICRO <= 2 * (MICRO * micro - pico) <= MICRO
    && (2 * (MICRO * micro - pico) == MICRO || 2 * (MICRO * micro - pico) == -MICRO ==> micro % 2 == 0)
  }

  /** `micro` is the nearest grid point of `pico`, the upper one on a tie. */
  ghost predicate NearestUp(pico: int, micro: int) {
    -MICRO < 2 * (MICRO * micro - pico) <= MICRO
  }

  /** Half-even rounding is exactly the nearest-even grid point. */
  lemma HalfEvenIsNearestEven(pico: int, micro: int)
    ensures RoundHalfEven(pico) == micro <==> NearestEven(pico, micro)
  {
    var floor, rest := pico / MICRO, pico % MICRO;
    assert pico == MICRO * floor + rest;
    if NearestEven(pico, micro) {
      assert micro == floor || micro == floor + 1;
    }
  }

  /** Amounts already on the grid are left alone by either rounding. */
  lemma GridPointsAreFixed(micro: nat)
    ensures RoundHalfEven(MICRO * micro) == micro
    ensures RoundToColumn(MICRO * micro) == micro
  {
    HalfEvenIsNearestEven(MICRO * micro, micro);
    assert 2 * (MICRO * micro) + MICRO == (2 * MICRO) * micro + MICRO;
  }

  /** Storing an amount cannot carry it across a bound that lies on the grid. */
  lemma ColumnRoundingKeepsGridBounds(pico: nat, bound: int)
    ensures pico <= MICRO * bound ==> RoundToColumn(pico) <= bound
    ensures MICRO * bound <= pico ==> bound <= RoundToColumn(pico)
  {
    var stored := RoundToColumn(pico);
    assert 2 * MICRO * stored <= 2 * pico + MICRO < 2 * MICRO * (stored + 1);
  }
}
