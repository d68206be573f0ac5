/** How a sweep of the other side progresses, fill by fill. */
module LabRun {
  import opened Wrappers
  import opened LabMoney
  import opened LabState
  import opened LabFill
  import opened LabSweep

  ghost predicate Balances(b0: Book, b: Book, trades: seq<Trade>) {
    && b.accounts.Keys == b0.accounts.Keys
    && (forall id :: id in b0.accounts ==>
      && b.accounts[id].cash == b0.accounts[id].cash + NetCash(trades, id)
      && b.accounts[id].inventory == b0.accounts[id].inventory + NetShares(trades, id))
    && b.feePool == b0.feePool + FeesOf(trades)
  }

  /** `b` is `b0` after `filled` shares were swept from the front of the other side, and nothing else. */
  ghost predicate Swept(b0: Book, b: Book, e: Event, trades: seq<Trade>, filled: nat) {
    var buys := e.side.Buy?;
    && b.feeBps == b0.feeBps && b.ids == b0.ids && b.used == b0.used && b.trades == b0.trades + trades
    && (if buys then b.bids == b0.bids else b.asks == b0.asks)
    && Opposite(b, buys) == Consumed(Opposite(b0, buys), filled)
    && CarryOut(trades, FillsOf(Opposite(b0, buys), filled), e, b0.feeBps)
    && Balances(b0, b, trades)
    && filled <= Reach(Opposite(b0, buys), e.actor, e.price, buys)
  }

  /** The sweep stands between two orders of the other side. */
  ghost predicate Between(b0: Book, b: Book, e: Event, k: nat, filled: nat) {
    var orders := Opposite(b0, e.side.Buy?);
    && k <= |orders| && filled == Total(orders[..k]) && Opposite(b, e.side.Buy?) == orders[k..]
    && forall i :: 0 <= i < k ==> Acceptable(orders[i], e.actor, e.price, e.side.Buy?)
  }

  ghost predicate AllRemain(orders: seq<Order>) {
    forall i :: 0 <= i < |orders| ==> orders[i].remaining > 0
  }

  lemma SweepStarts(b: Book, e: Event)
    ensures Swept(b, b, e, [], 0) && Between(b, b, e, 0, 0)
  {
  }

  /** What one trade does to everybody's balances. */
  lemma FillMoves(b: Book, aggressor: string, buys: bool, q: nat, sequence: nat, tick: nat, index: nat, id: string)
    requires CanFill(b, aggressor, buys, q) && id in b.accounts
    ensures var t := TradeOf(b, aggressor, buys, q, sequence, tick, index);
      var after := FillBook(b, aggressor, buys, q, sequence, tick, index);
      && after.accounts.Keys == b.accounts.Keys && after.feePool == b.feePool + t.buyerFee + t.sellerFee
      && after.accounts[id].cash
         == b.accounts[id].cash - (if t.buyer == id then t.price * t.quantity + t.buyerFee else 0)
                                    + (if t.seller == id then t.price * t.quantity - t.sellerFee else 0)
      && after.accounts[id].inventory == b.accounts[id].inventory
         + (if t.buyer == id then t.quantity else 0) - (if t.seller == id then t.quantity else 0)
  {
    hide FeeFor, ReservePerShare, HeadTaken;
  }

  lemma NetGrows(trades: seq<Trade>, t: Trade, id: string)
    ensures NetCash(trades + [t], id)
      == NetCash(trades, id) - (if t.buyer == id then t.price * t.quantity + t.buyerFee else 0)
                                         + (if t.seller == id then t.price * t.quantity - t.sellerFee else 0)
    ensures NetShares(trades + [t], id)
      == NetShares(trades, id) + (if t.buyer == id then t.quantity else 0) - (if t.seller == id then t.quantity else 0)
    ensures FeesOf(trades + [t]) == FeesOf(trades) + t.buyerFee + t.sellerFee
  {
    assert (trades + [t])[..|trades|] == trades;
  }

  lemma BalancesStep(b0: Book, b: Book, e: Event, trades: seq<Trade>, q: nat, sequence: nat, tick: nat, index: nat)
    requires Balances(b0, b, trades) && CanFill(b, e.actor, e.side.Buy?, q)
    ensures Balances(b0, FillBook(b, e.actor, e.side.Buy?, q, sequence, tick, index),
                     trades + [TradeOf(b, e.actor, e.side.Buy?, q, sequence, tick, index)])
  {
    hide FillBook, TradeOf, NetCash, NetShares, FeesOf;
    var t := TradeOf(b, e.actor, e.side.Buy?, q, sequence, tick, index);
    FillMoves(b, e.actor, e.side.Buy?, q, sequence, tick, index, e.actor);
    NetGrows(trades, t, e.actor);
    forall id | id in b0.accounts
      ensures var after := FillBook(b, e.actor, e.side.Buy?, q, sequence, tick, index);
        && after.accounts[id].cash == b0.accounts[id].cash + NetCash(trades + [t], id)
        && after.accounts[id].inventory == b0.accounts[id].inventory + NetShares(trades + [t], id)
    {
      FillMoves(b, e.actor, e.side.Buy?, q, sequence, tick, index, id);
      NetGrows(trades, t, id);
    }
  }

  lemma CarryOutGrows(trades: seq<Trade>, fills: seq<Fill>, e: Event, b: Book, q: nat)
    requires CarryOut(trades, fills, e, b.feeBps) && Opposite(b, e.side.Buy?) != [] && e.sequence >= 0 && e.tick >= 0
    ensures var o := Opposite(b, e.side.Buy?)[0];
      CarryOut(trades + [TradeOf(b, e.actor, e.side.Buy?, q, e.sequence, e.tick, |trades|)],
               fills + [Fill(o.id, o.actor, o.price, q)], e, b.feeBps)
  {
    hide FeeFor;
  }

  /** The orders' side of one more fill. */
  lemma SweepOrders(orders: seq<Order>, k: nat, q: nat, actor: string, price: Option<int>, buys: bool)
    requires AllRemain(orders) && k < |orders| && 1 <= q <= orders[k].remaining
    requires forall i :: 0 <= i <= k ==> Acceptable(orders[i], actor, price, buys)
    ensures var n := Total(orders[..k]);
      && HeadTaken(orders[k..], q) == Consumed(orders, n + q)
      && FillsOf(orders, n + q) == FillsOf(orders, n) + [Fill(orders[k].id, orders[k].actor, orders[k].price, q)]
      && n + q <= Reach(orders, actor, price, buys)
      && (q == orders[k].remaining ==> n + q == Total(orders[..k + 1]) && HeadTaken(orders[k..], q) == orders[k + 1..])
  {
    ConsumeNext(orders, k, q);
    TotalGrows(orders, k);
    assert FillsOf(orders[k..], q) == [Fill(orders[k].id, orders[k].actor, orders[k].price, q)];
    ReachAfterPrefix(orders, k, actor, price, buys);
  }

  lemma SweepStep(b0: Book, b: Book, e: Event, trades: seq<Trade>, filled: nat, q: nat)
    requires AllRemain(Opposite(b0, e.side.Buy?)) && e.sequence >= 0 && e.tick >= 0
    requires Swept(b0, b, e, trades, filled) && Between(b0, b, e, |trades|, filled)
    requires CanFill(b, e.actor, e.side.Buy?, q)
    requires Acceptable(Opposite(b, e.side.Buy?)[0], e.actor, e.price, e.side.Buy?)
    ensures var t := TradeOf(b, e.actor, e.side.Buy?, q, e.sequence, e.tick, |trades|);
      Swept(b0, FillBook(b, e.actor, e.side.Buy?, q, e.sequence, e.tick, |trades|), e, trades + [t], filled + q)
    ensures q == Opposite(b, e.side.Buy?)[0].remaining ==>
      Between(b0, FillBook(b, e.actor, e.side.Buy?, q, e.sequence, e.tick, |trades|), e, |trades| + 1, filled + q)
  {
    hide FeeFor, ReservePerShare, Balances, NetCash, NetShares, FeesOf, FillAccounts, Acceptable, Consumed, FillsOf,
         Reach, Total, CarryOut, HeadTaken, TradeOf;
    var buys := e.side.Buy?;
    var orders, k := Opposite(b0, buys), |trades|;
    assert orders[k] == Opposite(b, buys)[0];
    SweepOrders(orders, k, q, e.actor, e.price, buys);
    BalancesStep(b0, b, e, trades, q, e.sequence, e.tick, k);
    CarryOutGrows(trades, FillsOf(orders, filled), e, b, q);
  }

  /** A sweep that stopped between orders stopped for good only where nothing more is acceptable. */
  lemma SweepEnds(b0: Book, b: Book, e: Event, k: nat, filled: nat)
    requires Between(b0, b, e, k, filled)
    requires var orders := Opposite(b, e.side.Buy?);
      orders == [] || !Acceptable(orders[0], e.actor, e.price, e.side.Buy?)
    ensures filled == Reach(Opposite(b0, e.side.Buy?), e.actor, e.price, e.side.Buy?)
  {
    ReachAfterPrefix(Opposite(b0, e.side.Buy?), k, e.actor, e.price, e.side.Buy?);
  }

  /** The reservation that a limit buy checks up front stays affordable as fills come in at the limit or better. */
  lemma LimitStaysCovered(free: int, price: nat, limit: nat, remaining: nat, q: nat, feeBps: nat)
    requires price <= limit && q <= remaining && remaining * ReservePerShare(limit, feeBps) <= free
    ensures CostOf(price, q, feeBps) <= free
    ensures (remaining - q) * ReservePerShare(limit, feeBps) <= free - CostOf(price, q, feeBps)
  {
    hide CostOf;
    var r := ReservePerShare(limit, feeBps);
    ReservationCoversFill(price, limit, q, feeBps);
    assert remaining * r == (remaining - q) * r + q * r;
  }

  /** Everything of an acceptable head order is within reach. */
  lemma HeadIsWithinReach(b0: Book, b: Book, e: Event, k: nat, filled: nat)
    requires Between(b0, b, e, k, filled)
    requires var orders := Opposite(b, e.side.Buy?);
      orders != [] && Acceptable(orders[0], e.actor, e.price, e.side.Buy?)
    ensures filled + Opposite(b, e.side.Buy?)[0].remaining
      <= Reach(Opposite(b0, e.side.Buy?), e.actor, e.price, e.side.Buy?)
  {
    ReachAfterPrefix(Opposite(b0, e.side.Buy?), k, e.actor, e.price, e.side.Buy?);
  }

  /** What a fill leaves free for a buying aggressor. */
  lemma BuyerAfterFill(b: Book, actor: string, q: nat, sequence: nat, tick: nat, index: nat)
    requires CanFill(b, actor, true, q)
    ensures var after := FillBook(b, actor, true, q, sequence, tick, index);
      && actor in after.accounts
      && after.accounts[actor].cash == b.accounts[actor].cash - CostOf(b.asks[0].price, q, b.feeBps)
      && after.accounts[actor].reservedCash == b.accounts[actor].reservedCash
      && (q < b.asks[0].remaining ==> after.asks == [b.asks[0].(remaining := b.asks[0].remaining - q)] + b.asks[1..])
  {
    hide CostOf;
  }

  lemma SellerAfterFill(b: Book, actor: string, q: nat, sequence: nat, tick: nat, index: nat)
    requires CanFill(b, actor, false, q)
    ensures var after := FillBook(b, actor, false, q, sequence, tick, index);
      && actor in after.accounts
      && after.accounts[actor].inventory == b.accounts[actor].inventory - q
      && after.accounts[actor].reservedInventory == b.accounts[actor].reservedInventory
  {
    hide CostOf;
  }

  lemma UnaffordableMeansNone(price: nat, q: nat, available: int, feeBps: nat)
    requires CostOf(price, 1, feeBps) > available && CostOf(price, q, feeBps) <= available
    ensures q == 0
  {
    if q >= 1 { CostIsMonotone(price, 1, q, feeBps); }
  }
}
