/** Currency arithmetic: the services keep exact amounts and round to cents only on output. */
module Money {

  /** True when x has at most two decimal places. */
  predicate TwoDecimals(x: real) {
    (x * 100.0).Floor as real == x * 100.0
  }

  /** Math.round(x * 100) / 100: Math.round rounds halves up, i.e. it is Floor(y + 1/2). */
  function Round2(x: real): (r: real)
    ensures TwoDecimals(r)
    ensures r - 0.005 <= x < r + 0.005
  {
    ((x * 100.0 + 0.5).Floor as real) / 100.0
  }

  /** A value already in whole cents is left unchanged by rounding. */
  lemma Round2Exact(x: real)
    requires TwoDecimals(x)
    ensures Round2(x) == x
  {
    var n := (x * 100.0).Floor;
    assert (x * 100.0 + 0.5).Floor == n;
  }

  /** Rounding never reverses the order of two amounts. */
  lemma Round2Monotone(x: real, y: real)
    requires x <= y
    ensures Round2(x) <= Round2(y)
  {
    assert (x * 100.0 + 0.5).Floor <= (y * 100.0 + 0.5).Floor;
  }

  /** Whole-cent amounts add up to a whole-cent amount. */
  lemma TwoDecimalsAdd(x: real, y: real)
    requires TwoDecimals(x) && TwoDecimals(y)
    ensures TwoDecimals(x + y)
  {
    var n, m := (x * 100.0).Floor, (y * 100.0).Floor;
    assert (x + y) * 100.0 == (n + m) as real;
  }
}
