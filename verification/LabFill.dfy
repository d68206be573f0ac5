/** One fill against the head of the other side: what it moves, and that it keeps the invariant. */
module LabFill {
  import opened Numbers
  import opened LabMoney
  import opened LabState
  import opened LabFlow
  import Sorting

  /** The side after its head has given up `q` shares. */
  function HeadTaken(orders: seq<Order>, q: nat): seq<Order>
    requires orders != [] && q <= orders[0].remaining
  {
    if q == orders[0].remaining then orders[1..] else [orders[0].(remaining := orders[0].remaining - q)] + orders[1..]
  }

  function Opposite(b: Book, buys: bool): seq<Order> { if buys then b.asks else b.bids }

  function Bought(a: Account, price: nat, q: nat, feeBps: nat, rested: bool): Account {
    a.(cash := a.cash - CostOf(price, q, feeBps), inventory := a.inventory + q,
       reservedCash := a.reservedCash - if rested then q * ReservePerShare(price, feeBps) else 0)
  }

  function Sold(a: Account, price: nat, q: nat, feeBps: nat, rested: bool): Account {
    a.(cash := a.cash + price * q - FeeFor(price, q, feeBps), inventory := a.inventory - q,
       reservedInventory := a.reservedInventory - if rested then q else 0)
  }

  predicate CanFill(b: Book, aggressor: string, buys: bool, q: nat) {
    && Opposite(b, buys) != []
    && var resting := Opposite(b, buys)[0];
       && 1 <= q <= resting.remaining && resting.actor != aggressor && aggressor in b.accounts
       && resting.actor in b.accounts
       && (buys ==>
           CostOf(resting.price, q, b.feeBps) <= b.accounts[aggressor].cash - b.accounts[aggressor].reservedCash)
       && (!buys ==> q <= b.accounts[aggressor].inventory - b.accounts[aggressor].reservedInventory)
  }

  function TradeOf(b: Book, aggressor: string, buys: bool, q: nat, sequence: nat, tick: nat, index: nat): Trade
    requires Opposite(b, buys) != []
  {
    var resting := Opposite(b, buys)[0];
    var fee := FeeFor(resting.price, q, b.feeBps);
    Trade(sequence, index, tick, resting.price, q, if buys then aggressor else resting.actor,
          if buys then resting.actor else aggressor,
          fee, fee, aggressor, resting.id)
  }

  function FillAccounts(b: Book, aggressor: string, buys: bool, q: nat): map<string, Account>
    requires CanFill(b, aggressor, buys, q)
  {
    var resting := Opposite(b, buys)[0];
    var buyer := if buys then aggressor else resting.actor;
    var seller := if buys then resting.actor else aggressor;
    b.accounts[buyer := Bought(b.accounts[buyer], resting.price, q, b.feeBps, !buys)]
              [seller := Sold(b.accounts[seller], resting.price, q, b.feeBps, buys)]
  }

  function FillBook(b: Book, aggressor: string, buys: bool, q: nat, sequence: nat, tick: nat, index: nat): Book
    requires CanFill(b, aggressor, buys, q)
  {
    var resting := Opposite(b, buys)[0];
    Flowed(b, b.(accounts := FillAccounts(b, aggressor, buys, q),
                 asks := if buys then HeadTaken(b.asks, q) else b.asks,
                 bids := if buys then b.bids else HeadTaken(b.bids, q),
                 feePool := b.feePool + FeeFor(resting.price, q, b.feeBps) + FeeFor(resting.price, q, b.feeBps),
                 trades := b.trades + [TradeOf(b, aggressor, buys, q, sequence, tick, index)]))
  }

  /** Every order on the side after the fill is an order that was there, perhaps with less remaining. */
  ghost predicate Shrunk(after: seq<Order>, before: seq<Order>, shift: nat) {
    && |before| == |after| + shift
    && forall i :: 0 <= i < |after| ==>
         && after[i] == before[i + shift].(remaining := after[i].remaining)
         && (before[i + shift].remaining >= 1 ==> 1 <= after[i].remaining <= before[i + shift].remaining)
  }

  lemma HeadTakenShrinks(orders: seq<Order>, q: nat)
    requires orders != [] && 1 <= q <= orders[0].remaining
    ensures Shrunk(HeadTaken(orders, q), orders, if q == orders[0].remaining then 1 else 0)
  {
  }

  lemma ShrunkKeepsOrder(after: seq<Order>, before: seq<Order>, shift: nat, buy: bool)
    requires Shrunk(after, before, shift) && Sorting.Ordered(BookOrder(buy), before)
    ensures Sorting.Ordered(BookOrder(buy), after)
  {
    var le := BookOrder(buy);
    forall i, j | 0 <= i < j < |after|
      ensures le(after[i], after[j])
    {
      assert le(before[i + shift], before[j + shift]);
    }
  }

  lemma ShrunkKeepsIds(after: seq<Order>, before: seq<Order>, shift: nat)
    requires Shrunk(after, before, shift) && forall i, j :: 0 <= i < j < |before| ==> before[i].id != before[j].id
    ensures forall i, j :: 0 <= i < j < |after| ==> after[i].id != after[j].id
  {
    forall i, j | 0 <= i < j < |after|
      ensures after[i].id != after[j].id
    {
      assert before[i + shift].id != before[j + shift].id;
    }
  }

  lemma FillReservation(orders: seq<Order>, q: nat, actor: string, feeBps: nat)
    requires orders != [] && q <= orders[0].remaining
    ensures ReservedCash(HeadTaken(orders, q), actor, feeBps) == ReservedCash(orders, actor, feeBps)
      - if orders[0].actor == actor then q * ReservePerShare(orders[0].price, feeBps) else 0
    ensures ReservedShares(HeadTaken(orders, q), actor)
      == ReservedShares(orders, actor) - if orders[0].actor == actor then q else 0
  {
    var r, n := ReservePerShare(orders[0].price, feeBps), orders[0].remaining;
    assert (n - q) * r == n * r - q * r;
    if q < n {
      assert HeadTaken(orders, q)[1..] == orders[1..];
    }
  }

  lemma FillKeepsReservations(b: Book, aggressor: string, buys: bool, q: nat, sequence: nat, tick: nat, index: nat)
    requires CanFill(b, aggressor, buys, q) && ReservationsExact(b)
    ensures ReservationsExact(FillBook(b, aggressor, buys, q, sequence, tick, index))
  {
    hide TopOf, QuoteFlow, ReservePerShare, CostOf, FeeFor;
    var after := FillBook(b, aggressor, buys, q, sequence, tick, index);
    forall id | id in after.accounts
      ensures after.accounts[id].reservedCash == ReservedCash(after.bids, id, b.feeBps)
      ensures after.accounts[id].reservedInventory == ReservedShares(after.asks, id)
    {
      FillReservation(Opposite(b, buys), q, id, b.feeBps);
    }
  }

  /** Free cash and free shares of everybody but the aggressor never drop in a fill. */
  lemma FillKeepsSolvent(b: Book, aggressor: string, buys: bool, q: nat)
    requires CanFill(b, aggressor, buys, q) && b.feeBps <= MAX_FEE_BPS && ReservationsExact(b)
    requires forall id :: id in b.accounts ==> SolventAccount(b.accounts[id])
    ensures forall id :: id in FillAccounts(b, aggressor, buys, q) ==>
      SolventAccount(FillAccounts(b, aggressor, buys, q)[id])
  {
    var resting := Opposite(b, buys)[0];
    hide ReservePerShare, FeeFor;
    ReservationCoversFill(resting.price, resting.price, q, b.feeBps);
    FeeIsAtMostGross(resting.price, q, b.feeBps);
    HeadReservation(b, buys, q);
    var after := FillAccounts(b, aggressor, buys, q);
    forall id | id in after
      ensures SolventAccount(after[id])
    {
      assert id in b.accounts;
    }
  }

  /** The head's own reservation is part of its owner's. */
  lemma HeadReservation(b: Book, buys: bool, q: nat)
    requires Opposite(b, buys) != [] && q <= Opposite(b, buys)[0].remaining
    requires Opposite(b, buys)[0].actor in b.accounts && ReservationsExact(b)
    ensures var o := Opposite(b, buys)[0];
      && (!buys ==> q * ReservePerShare(o.price, b.feeBps) <= b.accounts[o.actor].reservedCash)
      && (buys ==> q <= b.accounts[o.actor].reservedInventory)
  {
    var o := Opposite(b, buys)[0];
    TimesKeepsOrder(q, o.remaining, ReservePerShare(o.price, b.feeBps));
  }

  lemma FillConserves(b: Book, aggressor: string, buys: bool, q: nat, sequence: nat, tick: nat, index: nat, cash: int,
                      shares: int)
    requires CanFill(b, aggressor, buys, q) && AccountsOk(b) && Conserved(b, cash, shares)
    ensures Conserved(FillBook(b, aggressor, buys, q, sequence, tick, index), cash, shares)
  {
    hide TopOf, QuoteFlow, FeeFor, ReservePerShare;
    var resting := Opposite(b, buys)[0];
    var buyer := if buys then aggressor else resting.actor;
    var seller := if buys then resting.actor else aggressor;
    var paid := Bought(b.accounts[buyer], resting.price, q, b.feeBps, !buys);
    var mid := b.accounts[buyer := paid];
    SumsFollowOneAccount(b.ids, b.accounts, buyer, paid);
    SumsFollowOneAccount(b.ids, mid, seller, Sold(b.accounts[seller], resting.price, q, b.feeBps, buys));
    assert mid[seller] == b.accounts[seller];
  }

  lemma FillKeepsAccounts(b: Book, aggressor: string, buys: bool, q: nat, sequence: nat, tick: nat, index: nat)
    requires CanFill(b, aggressor, buys, q) && AccountsOk(b) && ReservationsExact(b)
    ensures AccountsOk(FillBook(b, aggressor, buys, q, sequence, tick, index))
  {
    hide TopOf, QuoteFlow, ReservePerShare, FeeFor, CostOf, ReservationsExact;
    FillKeepsSolvent(b, aggressor, buys, q);
  }

  lemma FillKeepsSides(b: Book, aggressor: string, buys: bool, q: nat, sequence: nat, tick: nat, index: nat)
    requires CanFill(b, aggressor, buys, q) && OrdersOk(b) && UniqueIds(b) && Prioritised(b) && Uncrossed(b)
    ensures var after := FillBook(b, aggressor, buys, q, sequence, tick, index);
      OrdersOk(after) && UniqueIds(after) && Prioritised(after) && Uncrossed(after)
  {
    hide TopOf, QuoteFlow, ReservePerShare, FeeFor, CostOf, Ahead;
    var after := FillBook(b, aggressor, buys, q, sequence, tick, index);
    var orders := Opposite(b, buys);
    var shift := if q == orders[0].remaining then 1 else 0;
    HeadTakenShrinks(orders, q);
    SidesFromShrunk(b, after, buys, shift);
  }

  lemma SidesFromShrunk(b: Book, after: Book, buys: bool, shift: nat)
    requires OrdersOk(b) && UniqueIds(b) && Prioritised(b) && Uncrossed(b)
    requires after.used == b.used && after.accounts.Keys == b.accounts.Keys
    requires if buys then after.bids == b.bids && Shrunk(after.asks, b.asks, shift)
      else after.asks == b.asks && Shrunk(after.bids, b.bids, shift)
    ensures OrdersOk(after) && UniqueIds(after) && Prioritised(after) && Uncrossed(after)
  {
    hide Ahead;
    if buys {
      ShrunkKeepsOrder(after.asks, b.asks, shift, false);
      ShrunkKeepsIds(after.asks, b.asks, shift);
      forall j | 0 <= j < |after.asks|
        ensures OrderOk(after, after.asks[j], Sell)
      {
        assert OrderOk(b, b.asks[j + shift], Sell);
      }
    } else {
      ShrunkKeepsOrder(after.bids, b.bids, shift, true);
      ShrunkKeepsIds(after.bids, b.bids, shift);
      forall j | 0 <= j < |after.bids|
        ensures OrderOk(after, after.bids[j], Buy)
      {
        assert OrderOk(b, b.bids[j + shift], Buy);
      }
    }
  }

  /** A fill that the aggressor can pay for, or deliver, keeps the whole invariant. */
  lemma FillKeepsValid(b: Book, aggressor: string, buys: bool, q: nat, sequence: nat, tick: nat, index: nat, cash: int,
                       shares: int)
    requires CanFill(b, aggressor, buys, q) && ValidBook(b, cash, shares)
    ensures ValidBook(FillBook(b, aggressor, buys, q, sequence, tick, index), cash, shares)
  {
    hide TopOf, QuoteFlow, AccountsOk, OrdersOk, UniqueIds, Prioritised, Uncrossed, ReservationsExact, Conserved,
         FillBook, CanFill;
    FillKeepsAccounts(b, aggressor, buys, q, sequence, tick, index);
    FillKeepsSides(b, aggressor, buys, q, sequence, tick, index);
    FillKeepsReservations(b, aggressor, buys, q, sequence, tick, index);
    FillConserves(b, aggressor, buys, q, sequence, tick, index, cash, shares);
  }
}
