/** Buying and selling fund units: prices are per ten thousand units, fees are rounded up, proceeds down. */
module Funds {
  import opened Numbers

  const UNIT := 10_000

  function FundFee(amount: int, etf: bool): int { if etf then Ceil(amount, 1_000) else 0 }

  /** The whole units that `amount` buys after the fee. */
  function UnitsFor(amount: int, nav: int, etf: bool): int
    requires nav > 0
  {
    (amount - FundFee(amount, etf)) * UNIT / nav
  }

  /** What the units cost, rounded up. */
  function CostOfUnits(units: int, nav: int): int { Ceil(units * nav, UNIT) }

  /** What selling units pays out, after the fee. */
  function Proceeds(units: int, nav: int, etf: bool): int {
    var payout := units * nav / UNIT;
    payout - FundFee(payout, etf)
  }

  lemma FundFeeIsPart(amount: int, etf: bool)
    requires amount >= 0
    ensures 0 <= FundFee(amount, etf) <= amount
  {
  }

  /** A purchase never takes more than the amount given. */
  lemma PurchaseFits(amount: int, nav: int, etf: bool)
    requires amount >= 0 && nav > 0
    ensures var units := UnitsFor(amount, nav, etf);
      units >= 0 && CostOfUnits(units, nav) + FundFee(amount, etf) <= amount
  {
    FundFeeIsPart(amount, etf);
    var net := amount - FundFee(amount, etf);
    var units := UnitsFor(amount, nav, etf);
    assert units * nav <= net * UNIT;
    CeilIsLeast(units * nav, UNIT, net);
  }

  function ProceedsOfAll(parts: seq<nat>, nav: int, etf: bool): int {
    if parts == [] then 0 else Proceeds(parts[0], nav, etf) + ProceedsOfAll(parts[1..], nav, etf)
  }

  function UnitsOfAll(parts: seq<nat>): nat {
    if parts == [] then 0 else parts[0] + UnitsOfAll(parts[1..])
  }

  lemma {:induction false} PartsPayNoMore(parts: seq<nat>, nav: int, etf: bool)
    requires nav > 0
    ensures ProceedsOfAll(parts, nav, etf) * UNIT <= UnitsOfAll(parts) * nav
  {
    if parts != [] {
      PartsPayNoMore(parts[1..], nav, etf);
      var payout := parts[0] * nav / UNIT;
      assert parts[0] * nav >= 0;
      FundFeeIsPart(payout, etf);
      assert payout * UNIT <= parts[0] * nav;
      assert UnitsOfAll(parts) * nav == parts[0] * nav + UnitsOfAll(parts[1..]) * nav;
    }
  }

  /**
   However a holding is sold off again at the same price, in one go or in parts, it never returns
   more than was paid.
   */
  lemma SellingBackReturnsNoMore(amount: int, nav: int, etf: bool, parts: seq<nat>)
    requires amount >= 0 && nav > 0 && UnitsOfAll(parts) <= UnitsFor(amount, nav, etf)
    ensures ProceedsOfAll(parts, nav, etf) <= CostOfUnits(UnitsFor(amount, nav, etf), nav)
      + FundFee(amount, etf) <= amount
  {
    hide UnitsFor, FundFee, ProceedsOfAll, UnitsOfAll;
    var units := UnitsFor(amount, nav, etf);
    PurchaseFits(amount, nav, etf);
    FundFeeIsPart(amount, etf);
    PartsPayNoMore(parts, nav, etf);
    TimesKeepsOrder(UnitsOfAll(parts), units, nav);
    CeilCovers(units * nav, ProceedsOfAll(parts, nav, etf));
  }

  lemma CeilCovers(a: int, n: int)
    requires n * UNIT <= a
    ensures n <= Ceil(a, UNIT)
  {
  }
}
