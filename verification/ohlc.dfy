/** The OHLC sanitizer of quantworks/barfeed/common.py: a pure repair of a
    four-price tuple so that low and high enclose open and close. Prices are
    modelled as reals (floating-point rounding and NaN are not modelled). */
module Ohlc {

  datatype Prices = Prices(open: real, high: real, low: real, close: real)

  function Min(a: real, b: real): real { if a <= b then a else b }

  function Max(a: real, b: real): real { if a <= b then b else a }

  /** low <= min(open, close) <= max(open, close) <= high */
  predicate Consistent(p: Prices) {
    p.low <= Min(p.open, p.close) && Max(p.open, p.close) <= p.high
  }

  /** `sanitizeOhlc`: four conditional rebindings, in the source's order. */
  function SanitizeOhlc(open: real, high: real, low: real, close: real): (r: Prices)
    ensures r.open == open && r.close == close
    ensures r.low == Min(low, Min(open, close))
    ensures r.high == Max(high, Max(open, close))
    ensures Consistent(r)
    ensures r.low <= low && high <= r.high
    ensures r == Prices(open, high, low, close) <==> Consistent(Prices(open, high, low, close))
  {
    var low1 := if low > open then open else low;
    var low2 := if low1 > close then close else low1;
    var high1 := if high < open then open else high;
    var high2 := if high1 < close then close else high1;
    Prices(open, high2, low2, close)
  }

  function Sanitize(p: Prices): Prices {
    SanitizeOhlc(p.open, p.high, p.low, p.close)
  }

  /** Sanitizing twice is the same as sanitizing once. */
  lemma SanitizeIdempotent(p: Prices)
    ensures Sanitize(Sanitize(p)) == Sanitize(p)
  {
  }

  /** open=10, high=9, low=11, close=10 is repaired to high=10, low=10. */
  lemma SanitizeExample()
    ensures SanitizeOhlc(10.0, 9.0, 11.0, 10.0) == Prices(10.0, 10.0, 10.0, 10.0)
  {
  }
}
