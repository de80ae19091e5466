/** The discounted unit price, computed the same way by the detail view, the cart and checkout. */
module Pricing {
  import opened Types

  /** price × (1 − discount/100). */
  function EffectivePrice(p: Product): real
  {
    p.price * (1.0 - p.discountPercentage / 100.0)
  }

  /** With a non-negative price and a discount between 0 and 100, the effective price lies in [0, price]. */
  lemma EffectivePriceBounds(p: Product)
    requires p.price >= 0.0
    requires 0.0 <= p.discountPercentage <= 100.0
    ensures 0.0 <= EffectivePrice(p) <= p.price
  {
    var f := 1.0 - p.discountPercentage / 100.0;
    assert 0.0 <= f <= 1.0;
    assert p.price - EffectivePrice(p) == p.price * (1.0 - f);
    assert p.price * (1.0 - f) >= 0.0;
  }

  /** No discount leaves the price alone; a full discount makes the product free. */
  lemma EffectivePriceExtremes(p: Product)
    ensures p.discountPercentage == 0.0 ==> EffectivePrice(p) == p.price
    ensures p.discountPercentage == 100.0 ==> EffectivePrice(p) == 0.0
  {
  }

  /** A larger discount never gives a larger price. */
  lemma EffectivePriceMonotone(p: Product, q: Product)
    requires p.price == q.price >= 0.0
    requires p.discountPercentage <= q.discountPercentage
    ensures EffectivePrice(q) <= EffectivePrice(p)
  {
    assert EffectivePrice(p) - EffectivePrice(q)
        == p.price * ((q.discountPercentage - p.discountPercentage) / 100.0);
  }
}
