/** Discount strategies of an order: a calculator maps the undiscounted total
    of an order to the amount shown to the customer. */
module Discount {

  /** The two discount calculators. A percentage discount carries its
      percentage, which is not checked against any range. */
  datatype DiscountCalculator = NoDiscount | PercentageDiscount(percentage: real)

  /** The calculator's capability: map a total to a discounted total. A
      percentage discount removes exactly `percentage` percent of the total,
      whatever the sign or size of either. */
  function ApplyDiscount(c: DiscountCalculator, total: real): (r: real)
    ensures c.PercentageDiscount? ==> total - r == total * c.percentage / 100.0
  {
    match c
    case NoDiscount => total
    case PercentageDiscount(p) => total * (1.0 - p / 100.0)
  }

  /** Without a discount every total passes unchanged: zero, negative and positive. */
  lemma NoDiscountIsIdentity(total: real)
    ensures ApplyDiscount(NoDiscount, total) == total
  {
  }

  /** A total of zero stays zero under every calculator. */
  lemma ZeroTotalStaysZero(c: DiscountCalculator)
    ensures ApplyDiscount(c, 0.0) == 0.0
  {
  }

  /** Every calculator is linear in the total: discounting a sum is the sum
      of the discounted parts, so a discount may be applied line by line. */
  lemma DiscountIsAdditive(c: DiscountCalculator, a: real, b: real)
    ensures ApplyDiscount(c, a + b) == ApplyDiscount(c, a) + ApplyDiscount(c, b)
  {
  }

  /** The boundary percentages: 0 keeps the total, 100 gives nothing to pay. */
  lemma PercentageBoundaries(total: real)
    ensures ApplyDiscount(PercentageDiscount(0.0), total) == total
    ensures ApplyDiscount(PercentageDiscount(100.0), total) == 0.0
  {
  }

  /** No clamping: for a positive total, the discounted total is below the
      total exactly when the percentage is positive, zero exactly at 100,
      and negative exactly when the percentage exceeds 100. */
  lemma PercentageSign(p: real, total: real)
    requires total > 0.0
    ensures ApplyDiscount(PercentageDiscount(p), total) < total <==> p > 0.0
    ensures ApplyDiscount(PercentageDiscount(p), total) > total <==> p < 0.0
    ensures ApplyDiscount(PercentageDiscount(p), total) == 0.0 <==> p == 100.0
    ensures ApplyDiscount(PercentageDiscount(p), total) < 0.0 <==> p > 100.0
  {
    var r := ApplyDiscount(PercentageDiscount(p), total);
    assert total - r == total * p / 100.0;
    var kept := total * (100.0 - p);
    assert r == kept / 100.0;
    if p > 100.0 {
      assert kept < 0.0;
    } else if p < 100.0 {
      assert kept > 0.0;
    }
  }
}
