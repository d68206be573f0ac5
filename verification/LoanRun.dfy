/**
 A run of the engine in which a sale reaches into cash that another order has set aside: bought on
 credit, sold after the price has fallen, the shares do not pay for their loan.
 */
module LoanRun {
  import opened Wrappers
  import opened Money
  import opened Accounts
  import opened Lots
  import opened Settlement
  import opened SettlementSteps
  import opened Trades
  import opened SettlesWhen
  import opened Parties
  import opened Commands
  import opened Exposure
  import opened Compaction
  import opened GameWorld
  import NewWorld

  const SYMBOL := "X"
  const MAKER := Owned("maker-US", US)
  const PLAYER := Owned("player", US)

  function Limit(id: string, account: AccountId, side: Side, price: int, quantity: int): Order {
    Order(id, account, SYMBOL, side, Some(price), None, quantity, quantity, 0, 0, 0, false, quantity, 0, Pending)
  }

  /** Orders that set nothing aside for `a`. */
  predicate Foreign(o: Order, a: Account, except: string) { o.account != a.id || o.id == except || !Live(o) }

  lemma {:induction false} ForeignReserveNothing(w: World, orders: seq<Order>, a: Account, except: string)
    requires forall i :: 0 <= i < |orders| ==> Foreign(orders[i], a, except)
    ensures ReservedCash(w, orders, a, except) == 0
    ensures forall symbol, side :: ReservedQuantity(orders, a, symbol, side, except) == 0
  {
    if orders != [] { ForeignReserveNothing(w, orders[1..], a, except); }
  }

  lemma {:induction false} OneReserves(w: World, orders: seq<Order>, a: Account, except: string, k: nat)
    requires k < |orders| && !Foreign(orders[k], a, except)
    requires forall i :: 0 <= i < |orders| && i != k ==> Foreign(orders[i], a, except)
    ensures ReservedCash(w, orders, a, except) == Reservation(orders[k], ReferencePrice(w, orders[k]), a.leverage)
    ensures forall symbol, side :: side != orders[k].side ==> ReservedQuantity(orders, a, symbol, side, except) == 0
  {
    if k == 0 {
      ForeignReserveNothing(w, orders[1..], a, except);
    } else {
      OneReserves(w, orders[1..], a, except, k - 1);
    }
  }

  /** In the US market a single lot can be sold at any time. */
  lemma AllForSale(w: World, id: AccountId)
    requires id in w.accounts && SYMBOL in w.accounts[id].positions && |w.accounts[id].positions[SYMBOL].lots| == 1
    requires w.accounts[id].id.market == US
    ensures var a := w.accounts[id];
      var lots := PositionOf(a, SYMBOL).lots; Sellable(lots, US, a.actor, DayOf(w, US)) == lots[0].quantity
  {
    assert w.accounts[id].positions[SYMBOL].lots[1..] == [];
  }

  ghost predicate Bounded(w: World, b: int) { forall id :: id in w.accounts ==> -b <= w.accounts[id].cash <= b }

  lemma BoundedIsRoomy(w: World, b: int, d: int)
    requires Bounded(w, b) && b + d <= MAX_AMOUNT
    ensures Roomy(w, d)
  {
  }

  lemma WithinIsBounded(v: World, w: World, b: int, d: int)
    requires Within(v, w, d) && Bounded(w, b) && v.accounts.Keys == w.accounts.Keys
    ensures Bounded(v, b + d)
  {
  }

  function FirstBuy(): Order { Limit("1", PLAYER, Buy, 1_000, 100_000) }

  function FirstSale(): Order { Limit("2", MAKER, Sell, 1_000, 100_000) }

  function Waiting(): Order { Limit("3", PLAYER, Buy, 1_000, 80_000) }

  function SecondSale(): Order { Limit("4", PLAYER, Sell, 300, 100_000) }

  function SecondBuy(): Order { Limit("5", MAKER, Buy, 300, 100_000) }

  ghost predicate BeforeFirst(w: World) {
    && Sound(w) && MAKER in w.accounts && PLAYER in w.accounts && Bounded(w, 60_000_000_000)
    && w.accounts[MAKER] == EmptyAccount(MAKER, Maker).(cash := NewWorld.MAKER_CASH, symbols := [SYMBOL],
         positions := map[SYMBOL := Position([Lot(100_000, 400, 0, 0)], 0, 0, 0)])
    && w.accounts[PLAYER] == EmptyAccount(PLAYER, Player).(cash := INITIAL_CASH, leverage := 2)
    && w.orders == [FirstBuy(), FirstSale()]
  }

  lemma FirstIsValid(w: World)
    requires BeforeFirst(w)
    ensures Validated(w, FirstBuy(), FirstSale(), 1_000, 100_000)
    ensures ReservedCash(w, w.orders, w.accounts[PLAYER], "1") == 0 == ReservedCash(w, w.orders, w.accounts[MAKER], "2")
  {
    hide AccountOk, Grouped, Sum, Balance, Sellable, ReservedCash, ReservedQuantity;
    ForeignReserveNothing(w, w.orders, w.accounts[PLAYER], "1");
    ForeignReserveNothing(w, w.orders, w.accounts[MAKER], "2");
    AllForSale(w, MAKER);
    assert ValidateFill(w, FirstBuy(), 1_000, 100_000).None?;
    assert ValidateFill(w, FirstSale(), 1_000, 100_000).None?;
    SoundOrders(w);
  }

  lemma FirstFlow(w: World)
    requires BeforeFirst(w)
    ensures TradeFlow(w, FirstBuy(), FirstSale(), 100_000_000) == 200_002_800
    ensures LoanOn(w, FirstSale(), 100_000) == 0 && Fees(US, Sell, 100_000_000) == 2_800
    ensures Fees(US, Buy, 100_000_000) == 0
  {
    hide Sound;
    var lots := w.accounts[MAKER].positions[SYMBOL].lots;
    assert lots[1..] == [];
    assert RemoveLots(lots, 100_000, US, Maker, DayOf(w, US)).debt == 0;
  }

  /** Both accounts after the first trade: the player owes half of what the shares cost. */
  lemma FirstAccounts(w: World)
    requires BeforeFirst(w) && Settleable(w, FirstBuy(), FirstSale(), 1_000, 100_000)
    requires SettleTrade(w, FirstBuy(), FirstSale(), 1_000, 100_000).Success?
    ensures var v := SettleTrade(w, FirstBuy(), FirstSale(), 1_000, 100_000).value.world;
      && MAKER in v.accounts && PLAYER in v.accounts
      && v.accounts[MAKER].id == MAKER && v.accounts[MAKER].cash == NewWorld.MAKER_CASH + 99_997_200
      && v.accounts[MAKER].leverage == 1
      && v.accounts[PLAYER] == Owing(DayOf(w, US))
  {
    hide Sound, SettleTrade, RemoveLots, Settleable, PositionOk;
    SettledAccounts(w, FirstBuy(), FirstSale(), 1_000, 100_000);
    FirstFlow(w);
    assert Borrowed(100_000_000, 2) == 50_000_000;
    assert [] + [Lot(100_000, 1_000, DayOf(w, US), 50_000_000)] == [Lot(100_000, 1_000, DayOf(w, US), 50_000_000)];
  }

  /** The player's account with its loan. */
  function Owing(day: int): Account {
    EmptyAccount(PLAYER, Player).(cash := 50_000_000, debt := 50_000_000, leverage := 2, symbols := [SYMBOL],
                                  positions := map[SYMBOL := Position([Lot(100_000, 1_000, day, 50_000_000)], 0, 0, 0)])
  }

  lemma FirstSettles(w: World)
    requires BeforeFirst(w)
    ensures Settleable(w, FirstBuy(), FirstSale(), 1_000, 100_000)
    ensures var r := SettleTrade(w, FirstBuy(), FirstSale(), 1_000, 100_000);
      && r.Success? && AfterFirst(r.value.world) && r.value.world.orders == w.orders
      && r.value.buy.status.Done? && r.value.sell.status.Done? && r.value.buy.account == PLAYER
      && r.value.sell.account == MAKER
  {
    hide Sound, SettleTrade, RemoveLots, Fees, Owing, WorldOk, PoolChange, AccountOk, LoanOn, TradeFlow, ReservedCash,
         ValidateFill, Sum, Balance;
    FirstIsValid(w);
    FirstFlow(w);
    BoundedIsRoomy(w, 60_000_000_000, 200_002_800);
    SettlesExactlyWhen(w, FirstBuy(), FirstSale(), 1_000, 100_000);
    FirstAccounts(w);
    SettledTradeKeepsWorld(w, FirstBuy(), FirstSale(), 1_000, 100_000);
    WithinIsBounded(SettleTrade(w, FirstBuy(), FirstSale(), 1_000, 100_000).value.world, w, 60_000_000_000,
                    200_002_800);
  }

  ghost predicate AfterFirst(w: World) {
    && MAKER in w.accounts && PLAYER in w.accounts && Bounded(w, 61_000_000_000)
    && w.accounts[MAKER].id == MAKER && w.accounts[MAKER].cash == NewWorld.MAKER_CASH + 99_997_200
    && w.accounts[MAKER].leverage == 1
    && w.accounts[PLAYER] == Owing(DayOf(w, US))
  }

  /** The two filled orders, the one that waits, and the two of the second trade. */
  ghost predicate BeforeSecond(w: World) {
    && Sound(w) && AfterFirst(w) && |w.orders| == 5
    && w.orders[0].status.Done? && w.orders[1].status.Done? && w.orders[2] == Waiting() && w.orders[3] == SecondSale()
    && w.orders[4] == SecondBuy()
  }

  lemma SecondIsValid(w: World)
    requires BeforeSecond(w)
    ensures Validated(w, SecondBuy(), SecondSale(), 300, 100_000)
    ensures ReservedCash(w, w.orders, w.accounts[MAKER], "5") == 0
    ensures ReservedCash(w, w.orders, w.accounts[PLAYER], "4") == 40_000_000
  {
    hide AccountOk, Grouped, Sum, Balance, ReservedCash, ReservedQuantity, Sellable;
    ForeignReserveNothing(w, w.orders, w.accounts[MAKER], "5");
    OneReserves(w, w.orders, w.accounts[PLAYER], "4", 2);
    WaitingReserves();
    AllForSale(w, PLAYER);
    assert ValidateFill(w, SecondBuy(), 300, 100_000).None?;
    assert ValidateFill(w, SecondSale(), 300, 100_000).None?;
    SoundOrders(w);
  }

  lemma SecondFlow(w: World)
    requires BeforeSecond(w)
    ensures TradeFlow(w, SecondBuy(), SecondSale(), 30_000_000) == 110_000_840
    ensures LoanOn(w, SecondSale(), 100_000) == 50_000_000 && Fees(US, Sell, 30_000_000) == 840
    ensures Fees(US, Buy, 30_000_000) == 0
  {
    hide Sound;
    var lots := w.accounts[PLAYER].positions[SYMBOL].lots;
    assert lots[1..] == [];
    assert RemoveLots(lots, 100_000, US, Player, DayOf(w, US)).debt == 50_000_000;
  }

  /** The second trade settles, and leaves the player with less than the waiting order has set aside. */
  lemma SecondSettles(w: World)
    requires BeforeSecond(w)
    ensures Settleable(w, SecondBuy(), SecondSale(), 300, 100_000)
    ensures var r := SettleTrade(w, SecondBuy(), SecondSale(), 300, 100_000);
      && r.Success? && PLAYER in r.value.world.accounts
      && var v := r.value.world.(orders := w.orders[4 := r.value.buy][3 := r.value.sell]);
         v.accounts[PLAYER].cash == 29_999_160 && ReservedCash(v, v.orders, v.accounts[PLAYER], "") == 40_000_000
  {
    hide Sound, SettleTrade, RemoveLots, Fees, WorldOk, PoolChange, AccountOk, LoanOn, TradeFlow, ReservedCash,
         ValidateFill, Sum, Balance, CashChange;
    SecondIsValid(w);
    SecondFlow(w);
    BoundedIsRoomy(w, 61_000_000_000, 110_000_840);
    SettlesExactlyWhen(w, SecondBuy(), SecondSale(), 300, 100_000);
    SettledTradeKeepsWorld(w, SecondBuy(), SecondSale(), 300, 100_000);
    SettledCash(w, SecondBuy(), SecondSale(), 300, 100_000);
    LoanIsChange(w, SecondSale(), 30_000_000, 100_000);
    var r := SettleTrade(w, SecondBuy(), SecondSale(), 300, 100_000).value;
    var v := r.world.(orders := w.orders[4 := r.buy][3 := r.sell]);
    OneReserves(v, v.orders, v.accounts[PLAYER], "", 2);
    WaitingReserves();
  }

  lemma WaitingReserves()
    ensures Reservation(Waiting(), 1_000, 2) == 40_000_000
  {
  }

  /** The world when the first trade is due. */
  lemma FirstIsReady(w0: World, w1: World, w2: World, w3: World, w4: World, w5: World)
    requires forall id :: id in w0.accounts ==> w0.accounts[id].cash == 0 && id.House?
    requires Opened(w1, w0, MAKER, Maker, NewWorld.MAKER_CASH) && w2 == Stocked(w1, MAKER, SYMBOL, 400)
    requires Opened(w3, w2, PLAYER, Player, INITIAL_CASH)
    requires SetLeverage(w3, PLAYER, 2) == Success(w4) && w5 == w4.(orders := [FirstBuy(), FirstSale()]) && Sound(w5)
    ensures BeforeFirst(w5)
  {
    hide Sound;
    assert EMPTY.lots + [Lot(100_000, 400, 0, 0)] == [Lot(100_000, 400, 0, 0)];
    assert w2.accounts[MAKER].positions == map[SYMBOL := Position([Lot(100_000, 400, 0, 0)], 0, 0, 0)];
    assert w2.accounts[MAKER].symbols == [SYMBOL];
  }

  lemma NewAccountIsFree(w: World)
    requires PLAYER in w.accounts && w.accounts[PLAYER] == EmptyAccount(PLAYER, Player).(cash := INITIAL_CASH)
    requires w.orders == []
    ensures SetLeverage(w, PLAYER, 2).Success? && SetLeverage(w, PLAYER, 2).value.orders == []
  {
  }

  /** A maker with stock, a player with leverage, and an order from each. */
  method Prepare() returns (e: Engine)
    ensures fresh(e) && e.Valid() && BeforeFirst(e.View())
  {
    hide Sound, BeforeFirst, SetLeverage;
    e := new Engine();
    ghost var w0 := e.View();
    var error := e.AddAccount(MAKER, Maker, NewWorld.MAKER_CASH);
    ghost var w1 := e.View();
    e.Stock(MAKER, SYMBOL, 400);
    ghost var w2 := e.View();
    error := e.AddAccount(PLAYER, Player, INITIAL_CASH);
    ghost var w3 := e.View();
    NewAccountIsFree(w3);
    error := e.ChooseLeverage(PLAYER, 2);
    ghost var w4 := e.View();
    e.Place(FirstBuy());
    e.Place(FirstSale());
    assert e.orders == [FirstBuy(), FirstSale()];
    FirstIsReady(w0, w1, w2, w3, w4, e.View());
  }

  lemma FirstPair(w: World)
    requires BeforeFirst(w)
    ensures |w.orders| == 2 && w.orders[0] == FirstBuy() && w.orders[1] == FirstSale()
  {
  }

  /** The purchase on credit, and the orders that follow it. */
  method Borrow(e: Engine) returns (loan: int)
    requires e.Valid() && BeforeFirst(e.View())
    modifies e
    ensures e.Valid() && BeforeSecond(e.View()) && loan == 50_000_000
  {
    hide Sound, SettleTrade, Settleable, BeforeFirst, BeforeSecond, AfterFirst;
    ghost var w := e.View();
    FirstPair(w);
    FirstSettles(w);
    var error := e.Settle(0, 1, 1_000, 100_000);
    ghost var t := SettleTrade(w, FirstBuy(), FirstSale(), 1_000, 100_000).value;
    LoanIsThere(t.world);
    loan := e.accounts[PLAYER].debt;
    e.Place(Waiting());
    e.Place(SecondSale());
    e.Place(SecondBuy());
    SecondIsReady(t.world, t.buy, t.sell, e.View());
  }

  lemma LoanIsThere(w: World)
    requires AfterFirst(w)
    ensures PLAYER in w.accounts && w.accounts[PLAYER].debt == 50_000_000
  {
  }

  lemma SecondIsReady(w: World, buy: Order, sell: Order, v: World)
    requires AfterFirst(w) && buy.status.Done? && sell.status.Done? && Sound(v)
    requires v == w.(orders := [buy, sell, Waiting(), SecondSale(), SecondBuy()])
    ensures BeforeSecond(v)
  {
    hide Sound, Owing;
  }

  /**
   The run: shares bought on credit are sold for less, and the account's waiting order has set aside
   more than is left.
   */
  method SaleReachesReservedCash() returns (e: Engine, loan: int)
    ensures fresh(e) && e.Valid() && loan == 50_000_000
    ensures PLAYER in e.accounts && Available(e.View(), e.accounts[PLAYER], "") < 0
  {
    hide Sound, SettleTrade, Settleable, BeforeFirst, BeforeSecond;
    e := Prepare();
    loan := Borrow(e);
    SecondPair(e.View());
    SecondSettles(e.View());
    var error := e.Settle(4, 3, 300, 100_000);
  }

  lemma SecondPair(w: World)
    requires BeforeSecond(w)
    ensures |w.orders| == 5 && w.orders[3] == SecondSale() && w.orders[4] == SecondBuy()
  {
  }
}
