/** Integer-cent arithmetic of the laboratory book: fees, reservations and their rounding. */
module LabMoney {
  import opened Numbers
  const FEE_DENOMINATOR := 10_000
  const MAX_FEE_BPS := 100
  const MAX_QUANTITY := 50_000

  /** The per-trade fee in cents. */
  function FeeFor(price: nat, quantity: nat, feeBps: nat): nat {
    Ceil(price * quantity * feeBps, FEE_DENOMINATOR)
  }

  /** The cash a resting buy sets aside for each share. */
  function ReservePerShare(price: nat, feeBps: nat): nat {
    price + Ceil(price * feeBps, FEE_DENOMINATOR)
  }

  /** What a buyer pays for a fill. */
  function CostOf(price: nat, quantity: nat, feeBps: nat): nat {
    price * quantity + FeeFor(price, quantity, feeBps)
  }

  /** Rounding up never gains by splitting: one fee is at most the sum of two. */
  lemma FeeIsSubadditive(price: nat, a: nat, b: nat, feeBps: nat)
    ensures FeeFor(price, a + b, feeBps) <= FeeFor(price, a, feeBps) + FeeFor(price, b, feeBps)
  {
    var x, y := FeeFor(price, a, feeBps), FeeFor(price, b, feeBps);
    var d := FEE_DENOMINATOR;
    CeilIsLeast(price * a * feeBps, d, x);
    CeilIsLeast(price * b * feeBps, d, y);
    assert (x + y) * d == x * d + y * d;
    assert price * (a + b) * feeBps == price * a * feeBps + price * b * feeBps by {
      assert price * (a + b) == price * a + price * b;
      Distributes(price * a, price * b, feeBps);
    }
    CeilIsLeast(price * (a + b) * feeBps, d, x + y);
  }

  lemma Distributes(x: nat, y: nat, z: nat)
    ensures (x + y) * z == x * z + y * z
  {
  }

  /** A dearer or larger fill never costs less in fees. */
  lemma FeeIsMonotone(p: nat, q: nat, p': nat, q': nat, feeBps: nat)
    requires p <= p' && q <= q'
    ensures FeeFor(p, q, feeBps) <= FeeFor(p', q', feeBps) && p * q <= p' * q'
  {
    TimesKeepsOrder(p, p', q);
    TimesKeepsOrder(q, q', p');
    assert p * q <= p' * q == q * p' <= q' * p' == p' * q';
    TimesKeepsOrder(p * q, p' * q', feeBps);
    CeilIsLeast(p' * q' * feeBps, FEE_DENOMINATOR, FeeFor(p', q', feeBps));
    CeilIsLeast(p * q * feeBps, FEE_DENOMINATOR, FeeFor(p', q', feeBps));
  }

  /** The reservation of `quantity` shares covers a fill of as many, at the reserved price or better. */
  lemma {:induction false} ReservationCoversFill(p: nat, limit: nat, quantity: nat, feeBps: nat)
    requires p <= limit
    ensures CostOf(p, quantity, feeBps) <= quantity * ReservePerShare(limit, feeBps)
    decreases quantity
  {
    if quantity == 0 {
      assert p * 0 * feeBps == 0;
    } else {
      ReservationCoversFill(p, limit, quantity - 1, feeBps);
      FeeIsSubadditive(p, quantity - 1, 1, feeBps);
      FeeIsMonotone(p, 1, limit, 1, feeBps);
      assert FeeFor(limit, 1, feeBps) == Ceil(limit * feeBps, FEE_DENOMINATOR);
      assert p * quantity == p * (quantity - 1) + p;
      assert quantity * ReservePerShare(limit, feeBps)
        == (quantity - 1) * ReservePerShare(limit, feeBps) + ReservePerShare(limit, feeBps);
    }
  }

  /** A fee never exceeds what is traded, so a seller's cash never drops. */
  lemma FeeIsAtMostGross(price: nat, quantity: nat, feeBps: nat)
    requires feeBps <= MAX_FEE_BPS
    ensures FeeFor(price, quantity, feeBps) <= price * quantity
  {
    var gross := price * quantity;
    TimesKeepsOrder(feeBps, FEE_DENOMINATOR, gross);
    assert gross * feeBps == feeBps * gross && FEE_DENOMINATOR * gross == gross * FEE_DENOMINATOR;
    CeilIsLeast(gross * feeBps, FEE_DENOMINATOR, gross);
  }

  lemma CostIsMonotone(price: nat, a: nat, b: nat, feeBps: nat)
    requires a <= b
    ensures CostOf(price, a, feeBps) <= CostOf(price, b, feeBps)
  {
    FeeIsMonotone(price, a, price, b, feeBps);
  }

  lemma CostOfNothing(price: nat, feeBps: nat)
    ensures CostOf(price, 0, feeBps) == 0
  {
    assert price * 0 * feeBps == 0;
  }

  /** No quantity between `k` and `cap` beyond `k` can be paid for. */
  ghost predicate NothingMoreFits(available: int, price: nat, k: nat, cap: nat, feeBps: nat) {
    forall j: nat :: k < j <= cap ==> CostOf(price, j, feeBps) > available
  }

  /** The largest quantity up to `cap` whose price plus fee fits the available cash. */
  method AffordableQuantity(available: int, price: nat, cap: nat, feeBps: nat) returns (low: nat)
    requires available >= 0
    ensures low <= cap && low <= MAX_QUANTITY && CostOf(price, low, feeBps) <= available
    ensures NothingMoreFits(available, price, low, if cap < MAX_QUANTITY then cap else MAX_QUANTITY, feeBps)
  {
    low := 0;
    var top := if cap < MAX_QUANTITY then cap else MAX_QUANTITY;
    var high := top;
    CostOfNothing(price, feeBps);
    while low < high
      invariant low <= high <= top && CostOf(price, low, feeBps) <= available
      invariant NothingMoreFits(available, price, high, top, feeBps)
    {
      var mid := (low + high + 1) / 2;
      if price * mid + FeeFor(price, mid, feeBps) <= available {
        low := mid;
      } else {
        forall j: nat | mid <= j <= top
          ensures CostOf(price, j, feeBps) > available
        {
          CostIsMonotone(price, mid, j, feeBps);
        }
        high := mid - 1;
      }
    }
  }

  /** After a fill that cash cut short, not one more share can be paid for at that price. */
  lemma CashLimitedFillIsFinal(available: int, price: nat, k: nat, cap: nat, feeBps: nat)
    requires k < cap && NothingMoreFits(available, price, k, cap, feeBps)
    ensures CostOf(price, 1, feeBps) > available - CostOf(price, k, feeBps)
  {
    FeeIsSubadditive(price, k, 1, feeBps);
    assert price * (k + 1) == price * k + price;
    assert CostOf(price, k + 1, feeBps) > available;
  }
}
