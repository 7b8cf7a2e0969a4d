/** Line-item valuation (`totalAmount` in the single-invoice screen): each item is
    priced as base, minus a percentage discount, plus a percentage tax on the
    discounted amount, and the invoice total is the sum over its items. */
module Valuation {
  import opened Basics
  import opened Models

  function Base(it: Item): real
  {
    it.price * it.quantity as real
  }

  function Discounted(it: Item): real
  {
    Base(it) - Base(it) * it.discount as real / 100.0
  }

  /** The amount one item contributes to the invoice total. */
  function Final(it: Item): real
  {
    Discounted(it) + Discounted(it) * it.tax as real / 100.0
  }

  /** The invoice total as a reference sum over the items. */
  function TotalAmount(items: seq<Item>): real
  {
    Sum(items, Final)
  }

  /** The accumulation loop of the source, proved to compute the reference sum. */
  method ComputeTotalAmount(items: seq<Item>) returns (total: real)
    ensures total == TotalAmount(items)
    ensures |items| == 0 ==> total == 0.0
  {
    total := 0.0;
    var i := 0;
    while i < |items|
      invariant 0 <= i <= |items|
      invariant total == Sum(items[..i], Final)
    {
      assert items[..i + 1][..i] == items[..i];
      total := total + Final(items[i]);
      i := i + 1;
    }
    assert items[..|items|] == items;
  }

  /** The stepwise computation equals the closed form `base × (1 − d/100) × (1 + t/100)`. */
  lemma FinalClosedForm(it: Item)
    ensures Final(it) == Base(it) * (1.0 - it.discount as real / 100.0) * (1.0 + it.tax as real / 100.0)
  {
    var b, d, t := Base(it), it.discount as real, it.tax as real;
    calc {
      Final(it);
      (b - b * d / 100.0) + (b - b * d / 100.0) * t / 100.0;
      (b - b * d / 100.0) * (1.0 + t / 100.0);
      b * (1.0 - d / 100.0) * (1.0 + t / 100.0);
    }
  }

  /** With neither discount nor tax an item contributes exactly price × quantity. */
  lemma FinalWithoutAdjustments(it: Item)
    requires it.discount == 0 && it.tax == 0
    ensures Final(it) == it.price * it.quantity as real
  {
  }

  /** The total is additive over concatenation of item lists. */
  lemma TotalAppend(xs: seq<Item>, ys: seq<Item>)
    ensures TotalAmount(xs + ys) == TotalAmount(xs) + TotalAmount(ys)
  {
    SumAppend(xs, ys, Final);
  }

  /** Reordering items never changes the total. */
  lemma TotalReorder(xs: seq<Item>, ys: seq<Item>)
    requires multiset(xs) == multiset(ys)
    ensures TotalAmount(xs) == TotalAmount(ys)
  {
    SumPermutation(xs, ys, Final);
  }

  /** A larger discount never raises an item's contribution, as long as the tax does not
      turn the multiplier negative (the code clamps neither percentage). */
  lemma FinalAntitoneInDiscount(it: Item, d: int)
    requires Base(it) >= 0.0 && it.tax >= -100
    requires it.discount <= d
    ensures Final(it.(discount := d)) <= Final(it)
  {
    var b, t := Base(it), it.tax as real;
    var m := 1.0 + t / 100.0;
    FinalClosedForm(it);
    FinalClosedForm(it.(discount := d));
    assert m >= 0.0;
    assert 1.0 - d as real / 100.0 <= 1.0 - it.discount as real / 100.0;
    assert b * m >= 0.0;
    MulMonotone(b * m, 1.0 - d as real / 100.0, 1.0 - it.discount as real / 100.0);
    assert b * (1.0 - d as real / 100.0) * m == (b * m) * (1.0 - d as real / 100.0);
    assert b * (1.0 - it.discount as real / 100.0) * m == (b * m) * (1.0 - it.discount as real / 100.0);
  }

  /** A larger tax never lowers an item's contribution while the discount is at most 100%. */
  lemma FinalMonotoneInTax(it: Item, t: int)
    requires Base(it) >= 0.0 && it.discount <= 100
    requires it.tax <= t
    ensures Final(it) <= Final(it.(tax := t))
  {
    var b := Base(it);
    var k := 1.0 - it.discount as real / 100.0;
    FinalClosedForm(it);
    FinalClosedForm(it.(tax := t));
    assert k >= 0.0;
    assert b * k >= 0.0;
    MulMonotone(b * k, 1.0 + it.tax as real / 100.0, 1.0 + t as real / 100.0);
  }

  lemma MulMonotone(c: real, x: real, y: real)
    requires c >= 0.0 && x <= y
    ensures c * x <= c * y
  {
    assert c * y - c * x == c * (y - x);
  }

  /** The worked example: 2 × 100 with 10% discount and 5% tax contributes 189. */
  lemma WorkedExample(name: string)
    ensures Final(Item(0, name, None, None, 100.0, 2, 10, 5)) == 189.0
  {
  }
}
