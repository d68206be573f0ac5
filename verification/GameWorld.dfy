/**
 The world as the engine holds it. Each command works on a staged copy and commits it only when
 everything went through, so `Valid` holds after every command, whatever its outcome.
 */
module GameWorld {
  import opened Wrappers
  import opened Numbers
  import opened Money
  import opened Accounts
  import opened Lots
  import opened Settlement
  import opened SettlementSteps
  import opened Trades
  import opened Commands
  import opened Compaction
  import opened Exposure
  import opened FundDesk
  import opened SafeAmounts
  import opened SettlesWhen
  import Funds
  import Sorting

  /** What every reachable world satisfies. */
  ghost predicate Sound(w: World) {
    && WorldOk(w) && Solvent(w) && Safe(w, {}) && Grouped(w.ledger)
    && (forall m :: Sum(w, Value(m)) == 0 && Sum(w, BankBooks(m)) == 0 && Balance(w.ledger, m) == 0)
    && (forall s :: Sum(w, Shorts(s)) <= BORROW_POOL)
    && (forall i :: 0 <= i < |w.orders| ==> OrderOk(w.orders[i]))
    && (forall s :: s in w.quotes ==> w.quotes[s] >= 0)
  }

  predicate OrderOk(o: Order) {
    && o.remaining >= 0 && o.filled >= 0
    && (o.price.Some? ==> o.price.value >= 0) && (o.triggerPrice.Some? ==> o.triggerPrice.value >= 0)
  }

  function EmptyAccount(id: AccountId, actor: Actor): Account { Account(id, actor, 0, 0, 0, 1, [], map[], Units(0, 0)) }

  const HOUSE_IDS: seq<AccountId> := [
    House(Treasury, CN), House(FeeDesk, CN), House(Bank, CN), House(Fx, CN), House(FundReserve, CN), House(Issuer, CN),
    House(Treasury, HK), House(FeeDesk, HK), House(Bank, HK), House(Fx, HK), House(FundReserve, HK), House(Issuer, HK),
    House(Treasury, US), House(FeeDesk, US), House(Bank, US), House(Fx, US), House(FundReserve, US), House(Issuer, US)
  ]

  lemma {:induction false} NothingSums(ids: seq<AccountId>, accounts: map<AccountId, Account>, x: Measure)
    requires forall id :: id in accounts ==> Reading(x, accounts[id]) == 0
    ensures Total(ids, accounts, Of(x)) == 0
  {
    if ids != [] { NothingSums(ids[1..], accounts, x); }
  }

  lemma HouseIdsAreAll(p: Purpose, m: Market)
    ensures House(p, m) in HOUSE_IDS
  {
    assert HOUSE_IDS[HousePlace(House(p, m))] == House(p, m);
  }

  /** The place at which a house account stands in the list. */
  function HousePlace(id: AccountId): int {
    if id.Owned? then -1
    else
      (match id.market case CN => 0 case HK => 6 case US => 12)
      + match id.purpose
        case Treasury => 0 case FeeDesk => 1 case Bank => 2 case Fx => 3 case FundReserve => 4 case Issuer => 5
  }

  lemma HousesAreDistinct()
    ensures Sorting.Distinct(HOUSE_IDS) && forall id :: id in HOUSE_IDS ==> id.House?
  {
    assert forall i :: 0 <= i < |HOUSE_IDS| ==> HousePlace(HOUSE_IDS[i]) == i && HOUSE_IDS[i].House?;
  }

  lemma EmptyIsOk(id: AccountId, actor: Actor)
    ensures AccountOk(EmptyAccount(id, actor)) && EmptyAccount(id, actor).id == id
    ensures EmptyAccount(id, actor).actor == actor
  {
  }

  /** A new account changes no sum: it starts with nothing. */
  lemma OpeningKeepsSums(w: World, a: Account, v: World)
    requires WorldOk(w) && a.id !in w.accounts && a == EmptyAccount(a.id, a.actor)
    requires v == w.(ids := w.ids + [a.id], accounts := w.accounts[a.id := a])
    ensures forall x: Measure :: Sum(v, x) == Sum(w, x)
  {
    forall x: Measure
      ensures Sum(v, x) == Sum(w, x)
    {
      TotalFollows(w.ids, w.accounts, a.id, a, Of(x));
      TotalAppends(w.ids, a.id, v.accounts, Of(x));
    }
  }

  lemma OpeningKeepsWorld(w: World, a: Account, v: World)
    requires WorldOk(w) && a.id !in w.accounts && a == EmptyAccount(a.id, a.actor) && a.id.Owned? && !a.actor.System?
    requires v == w.(ids := w.ids + [a.id], accounts := w.accounts[a.id := a])
    ensures WorldOk(v)
  {
    hide AccountOk, EmptyAccount;
    EmptyIsOk(a.id, a.actor);
    assert forall i :: 0 <= i < |w.ids| ==> w.ids[i] != a.id;
    hide Sorting.Distinct;
    assert Sorting.Distinct(v.ids) by { DistinctGrows(w.ids, a.id); }
    forall p, m
      ensures House(p, m) in v.accounts && v.accounts[House(p, m)].actor == System
    {
      assert House(p, m) in w.accounts && w.accounts[House(p, m)].actor == System;
    }
  }

  lemma DistinctGrows(ids: seq<AccountId>, id: AccountId)
    requires Sorting.Distinct(ids) && id !in ids
    ensures Sorting.Distinct(ids + [id])
  {
  }

  /** Orders that a settlement replaces keep their places, accounts and non-negative quantities. */
  lemma SoundAfterTrade(w: World, i: nat, j: nat, price: int, quantity: int, v: World)
    requires Sound(w) && i < |w.orders| && j < |w.orders| && i != j
    requires Settleable(w, w.orders[i], w.orders[j], price, quantity) && quantity <= w.orders[i].remaining
    requires quantity <= w.orders[j].remaining
    requires SettleTrade(w, w.orders[i], w.orders[j], price, quantity).Success?
    requires var t := SettleTrade(w, w.orders[i], w.orders[j], price, quantity).value;
      v == t.world.(orders := w.orders[i := t.buy][j := t.sell])
    ensures Sound(v)
  {
    hide SettleTrade, AccountOk, WorldOk, FilledOrder, PoolChange, Grouped;
    TradeIsSafe(w, w.orders[i], w.orders[j], price, quantity);
    var t := SettleTrade(w, w.orders[i], w.orders[j], price, quantity).value;
    SettledTradeKeepsWorld(w, w.orders[i], w.orders[j], price, quantity);
    TradeGroups(w, w.orders[i], w.orders[j], price, quantity);
    BorrowPoolHolds(w, w.orders[i], w.orders[j], price, quantity);
    OrdersAreNoPart(t.world, v);
    PoolIsShortsOnly(w.orders[i].symbol, w.orders[i].side, w.orders[j].side, quantity);
    FilledStaysNatural(w.orders[i], price, quantity, w.sequence + 1);
    FilledStaysNatural(w.orders[j], price, quantity,
                       w.sequence + 1 + if ShowsNext(w.orders[i], quantity) then 1 else 0);
  }

  /**
   In a reachable world reservations are natural, so nothing but a sale's own price decides whether
   a validated trade settles.
   */
  lemma SoundTradeSettlesExactlyWhen(w: World, i: nat, j: nat, price: int, quantity: int)
    requires Sound(w) && i < |w.orders| && j < |w.orders| && Validated(w, w.orders[i], w.orders[j], price, quantity)
    requires Roomy(w, TradeFlow(w, w.orders[i], w.orders[j], price * quantity))
    ensures var buy, sell := w.orders[i], w.orders[j];
      && PositionOk(PositionOf(w.accounts[sell.account], sell.symbol))
      && (SettleTrade(w, buy, sell, price, quantity).Success? <==>
            || sell.side.Short?
            || w.accounts[sell.account].cash + price * quantity
                 >= LoanOn(w, sell, quantity) + Fees(sell.account.market, Sell, price * quantity))
  {
    hide SettleTrade, LoanOn, Fees, TradeFlow, Roomy, ReservedCash, ValidateFill;
    var buy, sell := w.orders[i], w.orders[j];
    assert WorldOk(w) by { SoundIsOk(w); }
    LeverageIsPositive(w, buy.account);
    LeverageIsPositive(w, sell.account);
    ReservedCashIsNotNegative(w, w.orders, w.accounts[buy.account], buy.id);
    ReservedCashIsNotNegative(w, w.orders, w.accounts[sell.account], sell.id);
    SettlesExactlyWhen(w, buy, sell, price, quantity);
  }

  // ---- The check that the program makes after every command ----

  ghost predicate SafeInteger(n: int) { -MAX_SAFE <= n <= MAX_SAFE }

  ghost predicate SafeFunds(w: World) {
    forall id :: id in w.accounts ==> SafeInteger(w.accounts[id].funds.money) && SafeInteger(w.accounts[id].funds.etf)
  }

  /** One account, as the check sees it. */
  ghost predicate Accepted(a: Account) {
    && SafeInteger(a.cash) && SafeInteger(a.debt) && SafeInteger(a.collateral) && SafeInteger(a.funds.money)
    && SafeInteger(a.funds.etf)
    && (a.actor != System ==> a.cash >= 0 && a.debt >= 0 && a.collateral >= 0)
    && a.collateral == Total(a.symbols, a.positions, CollateralOf())
    && forall s :: s in a.positions ==> a.positions[s].shortQuantity >= 0 && LotsOk(a.positions[s].lots)
  }

  ghost predicate PassesCheck(w: World) {
    (forall id :: id in w.accounts ==> Accepted(w.accounts[id])) && forall m :: Balance(w.ledger, m) == 0
  }

  /** A reachable world passes the check if and only if fund holdings have not outgrown safe integers. */
  lemma SoundPassesExactlyWhen(w: World)
    requires Sound(w)
    ensures PassesCheck(w) <==> SafeFunds(w)
  {
    hide Sum, Grouped, Balance, LotsOk;
    AmountsAreSafe(w);
    forall id | id in w.accounts
      ensures w.accounts[id].actor != System ==> w.accounts[id].cash >= 0
    {
      assert id.House? ==> w.accounts[House(id.purpose, id.market)].actor == System;
    }
    assert forall id :: id in w.accounts ==> AccountOk(w.accounts[id]);
  }

  /** A trade never makes the check fail. */
  lemma TradePassesCheck(w: World, i: nat, j: nat, price: int, quantity: int, v: World)
    requires Sound(w) && PassesCheck(w) && i < |w.orders| && j < |w.orders| && i != j
    requires Settleable(w, w.orders[i], w.orders[j], price, quantity)
    requires quantity <= w.orders[i].remaining && quantity <= w.orders[j].remaining
    requires SettleTrade(w, w.orders[i], w.orders[j], price, quantity).Success?
    requires var t := SettleTrade(w, w.orders[i], w.orders[j], price, quantity).value;
      v == t.world.(orders := w.orders[i := t.buy][j := t.sell])
    ensures PassesCheck(v)
  {
    hide Sound, PassesCheck, SettleTrade, Settleable;
    SoundPassesExactlyWhen(w);
    SoundAfterTrade(w, i, j, price, quantity, v);
    assert Safe(w, {}) by { SoundIsOk(w); }
    TradeIsSafe(w, w.orders[i], w.orders[j], price, quantity);
    TradeKeepsKeys(w, i, j, price, quantity);
    SoundPassesExactlyWhen(v);
  }

  lemma TradeKeepsKeys(w: World, i: nat, j: nat, price: int, quantity: int)
    requires i < |w.orders| && j < |w.orders| && Settleable(w, w.orders[i], w.orders[j], price, quantity)
    requires SettleTrade(w, w.orders[i], w.orders[j], price, quantity).Success?
    ensures SettleTrade(w, w.orders[i], w.orders[j], price, quantity).value.world.accounts.Keys == w.accounts.Keys
  {
    hide AccountOk, SettleTrade, PoolChange, Fees, Swap;
    SettledTradeKeepsWorld(w, w.orders[i], w.orders[j], price, quantity);
  }

  lemma PoolIsShortsOnly(symbol: string, buy: Side, sell: Side, quantity: int)
    ensures forall x: Measure :: !x.Shorts? ==> PoolChange(x, symbol, buy, sell, quantity) == 0
  {
  }

  lemma FilledStaysNatural(o: Order, price: int, quantity: int, sequence: int)
    requires OrderOk(o) && 1 <= quantity <= o.remaining
    ensures OrderOk(FilledOrder(o, price, quantity, sequence))
  {
  }

  lemma OrdersAreNoPart(v: World, u: World)
    requires u == v.(orders := u.orders)
    ensures WorldOk(v) <==> WorldOk(u)
    ensures forall x: Measure :: Sum(u, x) == Sum(v, x)
  {
    hide AccountOk;
    forall x: Measure
      ensures Sum(u, x) == Sum(v, x)
    {
    }
  }

  /** The position change with the engine's own loop over the lots. */
  method ChangeStaged(w: World, o: Order, turnover: int, price: int, quantity: int, reference: int)
    returns (r: Result<World, RuleError>)
    requires o.account in w.accounts && House(Bank, o.account.market) in w.accounts && quantity >= 0
    requires PositionOk(PositionOf(w.accounts[o.account], o.symbol)) && w.accounts[o.account].leverage >= 1
    ensures r == ChangePosition(w, o, turnover, price, quantity, reference)
  {
    if !o.side.Sell? {
      return ChangePosition(w, o, turnover, price, quantity, reference);
    }
    hide RemoveLots, PostCash, Marked;
    var a := w.accounts[o.account];
    var held := PositionOf(a, o.symbol);
    var removal := TakeLots(held.lots, quantity, a.id.market, a.actor, DayOf(w, a.id.market));
    if removal.left != 0 { return Failure(InsufficientPosition); }
    var staged := w;
    if removal.debt > 0 {
      var posted := PostCash(w, o.account, House(Bank, o.account.market), removal.debt, reference);
      if posted.Failure? { return posted; }
      staged := posted.value;
    }
    var b := SoldOff(staged.accounts[o.account], o.symbol, held, removal);
    return Success(Marked(WithAccount(staged, b), o, reference));
  }

  /** The staged trade, step by step. */
  method SettleStaged(w: World, buy: Order, sell: Order, price: int, quantity: int)
    returns (r: Result<Trade, RuleError>)
    requires Settleable(w, buy, sell, price, quantity)
    ensures r == SettleTrade(w, buy, sell, price, quantity)
  {
    hide AccountOk, ValidateFill, ChangePosition, PostCash, FinishSide, WorldOk, Swapped;
    if buy.account == sell.account { return Failure(SelfTrade); }
    var refusal := ValidateFill(w, buy, price, quantity);
    if refusal.Some? { return Failure(refusal.value); }
    refusal := ValidateFill(w, sell, price, quantity);
    if refusal.Some? { return Failure(refusal.value); }
    var reference, turnover := w.nextId + 1, price * quantity;
    HouseFacts(w, buy.account, buy.symbol);
    var bought := ChangeStaged(w.(nextId := reference), buy, turnover, price, quantity, reference);
    if bought.Failure? { return Failure(bought.error); }
    BuyerChanged(w, buy, sell, price, quantity);
    var paid := PostCash(bought.value, buy.account, sell.account, turnover, reference);
    if paid.Failure? { return Failure(paid.error); }
    MoneyMoved(bought.value, buy.account, sell.account, turnover, reference, sell.symbol);
    var sold := ChangeStaged(paid.value, sell, turnover, price, quantity, reference);
    if sold.Failure? { return Failure(sold.error); }
    SwapKeepsWorld(w, buy, sell, price, quantity);
    SwappedIsSound(w, buy, sell, price, quantity, sold.value);
    HouseFacts(sold.value, buy.account, buy.symbol);
    var buyer := FinishSide(sold.value, buy, price, quantity, reference);
    if buyer.Failure? { return Failure(buyer.error); }
    FinishKeepsWorld(sold.value, buy, price, quantity, reference);
    HouseFacts(buyer.value.world, sell.account, sell.symbol);
    var seller := FinishSide(buyer.value.world, sell, price, quantity, reference);
    if seller.Failure? { return Failure(seller.error); }
    var last := seller.value.world;
    return Success(Trade(last.(quotes := last.quotes[buy.symbol := price]), buyer.value.order, seller.value.order));
  }

  lemma EmptyWorldIsOk(w: World)
    requires Sorting.Distinct(w.ids) && (forall id :: id in w.ids ==> id.House?)
    requires forall p, m :: House(p, m) in w.ids
    requires forall id :: id in w.accounts <==> id in w.ids
    requires forall id :: id in w.accounts ==> w.accounts[id] == EmptyAccount(id, System)
    ensures WorldOk(w)
  {
    hide AccountOk;
    forall id | id in w.accounts
      ensures w.accounts[id].id == id && AccountOk(w.accounts[id])
    {
      EmptyIsOk(id, System);
    }
  }

  lemma EmptyWorldIsSound(w: World)
    requires w.ids == HOUSE_IDS && w.accounts.Keys == (set id | id in HOUSE_IDS)
    requires forall id :: id in w.accounts ==> w.accounts[id] == EmptyAccount(id, System)
    requires w.orders == [] && w.ledger == [] && w.quotes == map[]
    ensures Sound(w) && forall id :: id in w.accounts ==> id.House?
  {
    hide HOUSE_IDS, AccountOk, WorldOk;
    NothingIsFlat(w.ledger);
    HousesAreDistinct();
    forall p, m
      ensures House(p, m) in w.ids
    {
      HouseIdsAreAll(p, m);
    }
    EmptyWorldIsOk(w);
    forall x: Measure
      ensures Sum(w, x) == 0
    {
      NothingSums(w.ids, w.accounts, x);
    }
  }

  /** What live orders set aside is never less than nothing. */
  lemma {:induction false} ReservedCashIsNotNegative(w: World, orders: seq<Order>, a: Account, except: string)
    requires a.leverage >= 1 && (forall i :: 0 <= i < |orders| ==> OrderOk(orders[i]))
    requires forall s :: s in w.quotes ==> w.quotes[s] >= 0
    ensures ReservedCash(w, orders, a, except) >= 0
  {
    if orders != [] {
      ReservationIsNotNegative(orders[0], ReferencePrice(w, orders[0]), a.leverage);
      ReservedCashIsNotNegative(w, orders[1..], a, except);
    }
  }

  lemma ReservationIsNotNegative(o: Order, price: int, leverage: int)
    requires o.remaining >= 0 && price >= 0 && leverage >= 1
    ensures Reservation(o, price, leverage) >= 0
  {
    hide Fees, Ceil;
    var turnover := price * o.remaining;
    TurnoverIsNatural(price, o.remaining);
    FeesAreNotNegative(o.account.market, o.side, turnover);
    CeilIsNatural(turnover, leverage);
    CeilIsNatural(turnover, 2);
  }

  lemma TurnoverIsNatural(price: int, quantity: int)
    requires price >= 0 && quantity >= 0
    ensures price * quantity >= 0
  {
  }

  lemma CeilIsNatural(n: int, d: int)
    requires n >= 0 && d > 0
    ensures Ceil(n, d) >= 0
  {
  }

  lemma PlacingKeepsSound(w: World, o: Order)
    requires Sound(w) && OrderOk(o)
    ensures Sound(w.(orders := w.orders + [o]))
  {
    hide WorldOk, Grouped;
    OrdersAreNoPart(w, w.(orders := w.orders + [o]));
  }

  /** Opening an account: the treasury issues its capital. */
  function OpenAccount(w: World, id: AccountId, actor: Actor, cash: nat): Result<World, RuleError>
    requires WorldOk(w) && id.Owned?
  {
    var v := w.(ids := w.ids + [id], accounts := w.accounts[id := EmptyAccount(id, actor)]);
    DesksExist(w, id.market);
    if cash == 0 then Success(v)
    else PostCash(v.(nextId := v.nextId + 1), House(Treasury, id.market), id, cash, v.nextId + 1)
  }

  lemma OpeningKeepsSound(w: World, id: AccountId, actor: Actor, cash: nat)
    requires Sound(w) && id.Owned? && id !in w.accounts && !actor.System? && OpenAccount(w, id, actor, cash).Success?
    ensures var v := OpenAccount(w, id, actor, cash).value;
      Sound(v) && id in v.accounts && v.accounts[id] == EmptyAccount(id, actor).(cash := cash)
  {
    hide AccountOk, PostCash, WorldOk, Grouped, Sum, SameFunds;
    var a := EmptyAccount(id, actor);
    var v := w.(ids := w.ids + [id], accounts := w.accounts[id := a]);
    OpeningKeepsSums(w, a, v);
    OpeningKeepsWorld(w, a, v);
    DesksExist(w, id.market);
    if cash > 0 {
      PostingIsSafe(v.(nextId := v.nextId + 1), House(Treasury, id.market), id, cash, v.nextId + 1, {});
      NextIdIsNoPart(v, v.nextId + 1);
      PostingGroups(v.(nextId := v.nextId + 1), House(Treasury, id.market), id, cash, v.nextId + 1);
      HousePosting(v.(nextId := v.nextId + 1), House(Treasury, id.market), id, cash, v.nextId + 1);
    }
  }

  lemma RepayKeepsSound(w: World, id: AccountId, amount: int)
    requires Sound(w) && id in w.accounts && id.Owned? && House(Bank, id.market) in w.accounts
    requires Repay(w, id, amount).Success?
    ensures Sound(Repay(w, id, amount).value)
  {
    hide AccountOk, Repay, WorldOk, Grouped;
    RepayKeepsWorld(w, id, amount);
    RepayGroups(w, id, amount);
    RepayKeepsRest(w, id, amount);
    RepayIsSafe(w, id, amount);
    LeverageIsPositive(w, id);
    ReservedCashIsNotNegative(w, w.orders, w.accounts[id], "");
  }

  lemma LeverageIsPositive(w: World, id: AccountId)
    requires WorldOk(w) && id in w.accounts
    ensures w.accounts[id].leverage >= 1
  {
  }

  lemma RepayKeepsRest(w: World, id: AccountId, amount: int)
    requires id in w.accounts && House(Bank, id.market) in w.accounts && Repay(w, id, amount).Success?
    ensures Repay(w, id, amount).value.quotes == w.quotes
  {
  }

  lemma TransferKeepsSound(w: World, owner: string, from: Market, to: Market, amount: int, inSeason: bool)
    requires Sound(w) && Owned(owner, from) in w.accounts && Owned(owner, to) in w.accounts
    requires Transfer(w, owner, from, to, amount, inSeason).Success?
    ensures Sound(Transfer(w, owner, from, to, amount, inSeason).value)
  {
    hide AccountOk, Transfer, WorldOk, Exchange, Grouped;
    TransferKeepsWorld(w, owner, from, to, amount, inSeason);
    TransferGroups(w, owner, from, to, amount, inSeason);
    TransferKeepsRest(w, owner, from, to, amount, inSeason);
    TransferIsSafe(w, owner, from, to, amount, inSeason);
    LeverageIsPositive(w, Owned(owner, from));
    ReservedCashIsNotNegative(w, w.orders, w.accounts[Owned(owner, from)], "");
  }

  lemma TransferKeepsRest(w: World, owner: string, from: Market, to: Market, amount: int, inSeason: bool)
    requires WorldOk(w) && Owned(owner, from) in w.accounts && Owned(owner, to) in w.accounts
    requires Transfer(w, owner, from, to, amount, inSeason).Success?
    ensures from != to && Transfer(w, owner, from, to, amount, inSeason).value.quotes == w.quotes
  {
    hide WorldOk, Exchange;
    DesksExist(w, from);
    DesksExist(w, to);
  }

  /** A step that keeps every sum, the orders, the quotes and the safe range, and overdraws nobody. */
  lemma StepKeepsSound(w: World, v: World)
    requires Sound(w) && WorldOk(v) && Grouped(v.ledger) && SameSums(v, w)
    requires v.orders == w.orders && v.quotes == w.quotes && Solvent(v) && Safe(v, {})
    ensures Sound(v)
  {
    hide WorldOk, Grouped, Sum, Balance;
  }

  lemma LeverageKeepsSound(w: World, id: AccountId, leverage: int)
    requires Sound(w) && id in w.accounts && id.Owned? && SetLeverage(w, id, leverage).Success?
    ensures Sound(SetLeverage(w, id, leverage).value)
  {
    hide WorldOk, Grouped, Sum, Balance, AccountOk, SetLeverage;
    LeverageKeepsWorld(w, id, leverage);
    LeverageIsSafe(w, id, leverage);
    StepKeepsSound(w, SetLeverage(w, id, leverage).value);
  }

  lemma ResetKeepsSound(w: World, id: AccountId, inSeason: bool)
    requires Sound(w) && id in w.accounts && id.Owned? && House(Treasury, id.market) in w.accounts
    requires Reset(w, id, inSeason).Success?
    ensures Sound(Reset(w, id, inSeason).value)
  {
    hide WorldOk, Grouped, Sum, Balance, AccountOk, Reset;
    ResetKeepsWorld(w, id, inSeason);
    ResetIsSafe(w, id, inSeason);
    StepKeepsSound(w, Reset(w, id, inSeason).value);
  }

  lemma BuyingUnitsKeepsSound(w: World, id: AccountId, etf: bool, amount: int, nav: int)
    requires Sound(w) && id in w.accounts && id.Owned? && nav >= 1 && BuyUnits(w, id, etf, amount, nav).Success?
    ensures Sound(BuyUnits(w, id, etf, amount, nav).value)
  {
    hide WorldOk, Grouped, Sum, Balance, AccountOk, BuyUnits, SameSums, Funds.UnitsFor, Funds.CostOfUnits,
         Funds.FundFee;
    BuyKeepsWorld(w, id, etf, amount, nav);
    LeverageIsPositive(w, id);
    ReservedCashIsNotNegative(w, w.orders, w.accounts[id], "");
    BuyingUnitsIsSafe(w, id, etf, amount, nav);
    StepKeepsSound(w, BuyUnits(w, id, etf, amount, nav).value);
  }

  lemma SellingUnitsKeepsSound(w: World, id: AccountId, etf: bool, units: int, nav: int)
    requires Sound(w) && id in w.accounts && id.Owned? && nav >= 1 && SellUnits(w, id, etf, units, nav).Success?
    ensures Sound(SellUnits(w, id, etf, units, nav).value)
  {
    hide WorldOk, Grouped, Sum, Balance, AccountOk, SellUnits, SameSums, Funds.Proceeds;
    SellKeepsWorld(w, id, etf, units, nav);
    SellingUnitsIsSafe(w, id, etf, units, nav);
    StepKeepsSound(w, SellUnits(w, id, etf, units, nav).value);
  }

  const MAKER_STOCK := 100_000

  /** The market maker's opening stock of one share, free of debt. */
  function Stocked(w: World, id: AccountId, symbol: string, cost: int): World
    requires id in w.accounts
  {
    var a := w.accounts[id];
    var held := PositionOf(a, symbol);
    w.(accounts := w.accounts[id := WithPosition(a, symbol, held.(lots := held.lots + [Lot(MAKER_STOCK, cost, 0, 0)]))])
  }

  /** Shares come into the world here; no money does. */
  lemma StockingKeepsSound(w: World, id: AccountId, symbol: string, cost: int)
    requires Sound(w) && id in w.accounts && id.Owned?
    ensures var v := Stocked(w, id, symbol, cost);
      && Sound(v) && forall x: Measure :: Sum(v, x) == Sum(w, x) + if x == NetShares(symbol) then MAKER_STOCK else 0
  {
    hide WorldOk, Grouped, Balance, AccountOk;
    AccountFacts(w, id, symbol);
    var a, stock := w.accounts[id], Lot(MAKER_STOCK, cost, 0, 0);
    var p := PositionOf(a, symbol).(lots := PositionOf(a, symbol).lots + [stock]);
    var b, v := WithPosition(a, symbol, p), Stocked(w, id, symbol, cost);
    LotSumsConcat(PositionOf(a, symbol).lots, [stock]);
    assert LongQuantity([stock]) == MAKER_STOCK && LotDebt([stock]) == 0 by { assert [stock][1..] == []; }
    SoundWithPosition(a, symbol, p, b);
    ReplaceKeepsWorld(w, b);
    assert Sorting.Distinct(w.ids) && id in w.ids by { IdsAreListed(w, id); }
    forall x: Measure
      ensures Sum(v, x) == Sum(w, x) + if x == NetShares(symbol) then MAKER_STOCK else 0
    {
      SumFollows(w, b, x);
      ReadingWithPosition(a, symbol, p, x);
    }
  }

  /** Days, quotes and orders' states are in no sum. */
  lemma FramesAreNoPart(w: World, v: World)
    requires Sound(w) && v == w.(days := v.days, quotes := v.quotes, orders := v.orders)
    requires forall i :: 0 <= i < |v.orders| ==> OrderOk(v.orders[i])
    requires forall s :: s in v.quotes ==> v.quotes[s] >= 0
    ensures Sound(v)
  {
    hide AccountOk, Grouped, Balance;
    forall x: Measure
      ensures Sum(v, x) == Sum(w, x)
    {
    }
  }

  predicate IsOwner(id: AccountId, owner: string) { id.Owned? && id.owner == owner }

  /** Why an order cannot be cancelled, if it cannot. */
  function Refusal(orders: seq<Order>, owner: string, i: nat, locked: bool): (r: Option<RuleError>)
    ensures r.None? ==> i < |orders|
  {
    if i >= |orders| || !IsOwner(orders[i].account, owner) then Some(OrderNotFound)
    else if Live(orders[i]) && locked then Some(CancelLocked)
    else None
  }

  function Withdrawn(orders: seq<Order>, i: nat): seq<Order>
    requires i < |orders|
  {
    orders[i := orders[i].(status := Cancelled)]
  }

  class Engine {
    var ids: seq<AccountId>
    var accounts: map<AccountId, Account>
    var orders: seq<Order>
    var quotes: map<string, int>
    var days: map<Market, int>
    var ledger: seq<Entry>
    var nextId: int
    var sequence: int

    function View(): World
      reads this
    {
      World(ids, accounts, orders, quotes, days, ledger, nextId, sequence)
    }

    ghost predicate Valid()
      reads this
    {
      Sound(View())
    }

    constructor ()
      ensures Valid() && orders == [] && ledger == []
      ensures forall id :: id in accounts ==> id.House? && accounts[id] == EmptyAccount(id, System)
      ensures forall p, m :: House(p, m) in accounts
    {
      var houses := map id | id in HOUSE_IDS :: EmptyAccount(id, System);
      ids, accounts, orders, quotes := HOUSE_IDS, houses, [], map[];
      days, ledger, nextId, sequence := map[CN := 1, HK := 1, US := 1], [], 0, 0;
      new;
      hide HOUSE_IDS, Sound;
      EmptyWorldIsSound(View());
      forall p, m
        ensures House(p, m) in accounts
      {
        HouseIdsAreAll(p, m);
      }
    }

    method Commit(w: World)
      modifies this
      ensures View() == w
    {
      ids, accounts, orders, quotes := w.ids, w.accounts, w.orders, w.quotes;
      days, ledger, nextId, sequence := w.days, w.ledger, w.nextId, w.sequence;
    }

    /** Settles a trade between two orders of the world, all or nothing. */
    method Settle(i: nat, j: nat, price: int, quantity: int) returns (error: Option<RuleError>)
      requires Valid() && i < |orders| && j < |orders| && i != j
      requires Settleable(View(), orders[i], orders[j], price, quantity) && quantity <= orders[i].remaining
      requires quantity <= orders[j].remaining
      modifies this
      ensures Valid()
      ensures error.Some? ==> View() == old(View())
      ensures var r := SettleTrade(old(View()), old(orders[i]), old(orders[j]), price, quantity);
        && (error == if r.Failure? then Some(r.error) else None)
        && (r.Success? ==> View() == r.value.world.(orders := old(orders)[i := r.value.buy][j := r.value.sell]))
    {
      hide Sound, SettleTrade, Settleable;
      ghost var w := View();
      var staged := View();
      var buy, sell := orders[i], orders[j];
      var r := SettleStaged(staged, buy, sell, price, quantity);
      if r.Failure? { return Some(r.error); }
      SoundAfterTrade(staged, i, j, price, quantity,
                      r.value.world.(orders := staged.orders[i := r.value.buy][j := r.value.sell]));
      Commit(r.value.world.(orders := staged.orders[i := r.value.buy][j := r.value.sell]));
      return None;
    }

    /** Opens an account with capital from the treasury. */
    method AddAccount(id: AccountId, actor: Actor, cash: nat) returns (error: Option<RuleError>)
      requires Valid() && id.Owned? && id !in accounts && !actor.System?
      modifies this
      ensures Valid()
      ensures error.Some? ==> View() == old(View())
      ensures error.None? ==> Opened(View(), old(View()), id, actor, cash)
      ensures House(Treasury, id.market) in old(accounts)
      ensures error.None? <==>
        || cash == 0
        || (cash <= MAX_AMOUNT && -MAX_AMOUNT <= old(accounts)[House(Treasury, id.market)].cash - cash <= MAX_AMOUNT)
    {
      hide Sound, OpenAccount, WorldOk;
      assert WorldOk(View()) by { SoundIsOk(View()); }
      OpensExactlyWhen(View(), id, actor, cash);
      var r := OpenAccount(View(), id, actor, cash);
      if r.Failure? { return Some(r.error); }
      OpeningShape(View(), id, actor, cash);
      OpeningKeepsSound(View(), id, actor, cash);
      Commit(r.value);
      return None;
    }

    /** Chooses the leverage of an account without exposure. */
    method ChooseLeverage(id: AccountId, leverage: int) returns (error: Option<RuleError>)
      requires Valid() && id in accounts && id.Owned?
      modifies this
      ensures Valid()
      ensures error.Some? ==> View() == old(View())
      ensures var r := SetLeverage(old(View()), id, leverage);
        error == (if r.Failure? then Some(r.error) else None) && (r.Success? ==> View() == r.value)
    {
      hide Sound, SetLeverage;
      var r := SetLeverage(View(), id, leverage);
      if r.Failure? { return Some(r.error); }
      LeverageKeepsSound(View(), id, leverage);
      Commit(r.value);
      return None;
    }

    /** Starts an account over with its first capital. */
    method StartOver(id: AccountId, inSeason: bool) returns (error: Option<RuleError>)
      requires Valid() && id in accounts && id.Owned? && House(Treasury, id.market) in accounts
      modifies this
      ensures Valid()
      ensures error.Some? ==> View() == old(View())
      ensures var r := Reset(old(View()), id, inSeason);
        error == (if r.Failure? then Some(r.error) else None) && (r.Success? ==> View() == r.value)
    {
      hide Sound, Reset;
      var r := Reset(View(), id, inSeason);
      if r.Failure? { return Some(r.error); }
      ResetKeepsSound(View(), id, inSeason);
      Commit(r.value);
      return None;
    }

    /** Buys fund units for an amount of cash. */
    method Subscribe(id: AccountId, etf: bool, amount: int, nav: int) returns (error: Option<RuleError>)
      requires Valid() && id in accounts && id.Owned? && nav >= 1
      modifies this
      ensures Valid()
      ensures error.Some? ==> View() == old(View())
      ensures var r := BuyUnits(old(View()), id, etf, amount, nav);
        error == (if r.Failure? then Some(r.error) else None) && (r.Success? ==> View() == r.value)
      ensures error.None? ==>
        var units := Funds.UnitsFor(amount, nav, etf);
        Exchanged(View(), old(View()), id, etf, -(Funds.CostOfUnits(units, nav) + Funds.FundFee(amount, etf)), units)
    {
      hide Sound, BuyUnits, Exchanged, WorldOk, Grouped;
      SoundIsOk(View());
      var r := BuyUnits(View(), id, etf, amount, nav);
      if r.Failure? { return Some(r.error); }
      BuyingUnitsKeepsSound(View(), id, etf, amount, nav);
      BuyKeepsWorld(View(), id, etf, amount, nav);
      Commit(r.value);
      return None;
    }

    /** Sells fund units back. */
    method Redeem(id: AccountId, etf: bool, units: int, nav: int) returns (error: Option<RuleError>)
      requires Valid() && id in accounts && id.Owned? && nav >= 1
      modifies this
      ensures Valid()
      ensures error.Some? ==> View() == old(View())
      ensures var r := SellUnits(old(View()), id, etf, units, nav);
        error == (if r.Failure? then Some(r.error) else None) && (r.Success? ==> View() == r.value)
      ensures error.None? ==> Exchanged(View(), old(View()), id, etf, Funds.Proceeds(units, nav, etf), -units)
    {
      hide Sound, SellUnits, Exchanged, WorldOk, Grouped;
      SoundIsOk(View());
      var r := SellUnits(View(), id, etf, units, nav);
      if r.Failure? { return Some(r.error); }
      SellingUnitsKeepsSound(View(), id, etf, units, nav);
      SellKeepsWorld(View(), id, etf, units, nav);
      Commit(r.value);
      return None;
    }

    /** Gives a market maker its opening stock. */
    method Stock(id: AccountId, symbol: string, cost: int)
      requires Valid() && id in accounts && id.Owned?
      modifies this`accounts
      ensures Valid() && View() == Stocked(old(View()), id, symbol, cost)
    {
      hide Sound;
      StockingKeepsSound(View(), id, symbol, cost);
      var a := accounts[id];
      var held := PositionOf(a, symbol);
      accounts := accounts[id := WithPosition(a, symbol, held.(lots := held.lots + [Lot(MAKER_STOCK, cost, 0, 0)]))];
    }

    /** Lists an instrument at its first price. */
    method List(symbol: string, price: nat)
      requires Valid()
      modifies this`quotes
      ensures Valid() && View() == old(View()).(quotes := old(quotes)[symbol := price])
    {
      hide Sound;
      SoundOrders(View());
      FramesAreNoPart(View(), View().(quotes := quotes[symbol := price]));
      quotes := quotes[symbol := price];
    }

    /** A new trading day: yesterday's lots may be sold. */
    method OpenDay(m: Market)
      requires Valid()
      modifies this`days
      ensures Valid() && View() == old(View()).(days := old(days)[m := DayOf(old(View()), m) + 1])
    {
      hide Sound;
      SoundOrders(View());
      FramesAreNoPart(View(), View().(days := days[m := DayOf(View(), m) + 1]));
      days := days[m := DayOf(View(), m) + 1];
    }

    /**
     Cancels an order of the owner's; one that is closed stays as it is, and during the locked part
     of the auction none is cancelled.
     */
    method Withdraw(owner: string, i: nat, locked: bool) returns (error: Option<RuleError>)
      requires Valid()
      modifies this`orders
      ensures Valid()
      ensures error == Refusal(old(orders), owner, i, locked)
      ensures View() == if error.None? && Live(old(orders)[i])
        then old(View()).(orders := Withdrawn(old(orders), i)) else old(View())
    {
      hide Sound;
      if i >= |orders| || !IsOwner(orders[i].account, owner) { return Some(OrderNotFound); }
      if !Live(orders[i]) { return None; }
      if locked { return Some(CancelLocked); }
      SoundOrders(View());
      FramesAreNoPart(View(), View().(orders := Withdrawn(orders, i)));
      orders := orders[i := orders[i].(status := Cancelled)];
      return None;
    }

    /** Cuts the ledger back to its last groups. */
    method CompactLedger()
      requires Valid()
      modifies this`ledger
      ensures Valid() && exists b :: 0 <= b <= |old(ledger)| && ledger == old(ledger)[b..]
      ensures |old(ledger)| > KEPT_ENTRIES ==> |ledger| >= KEPT_ENTRIES
    {
      hide Sound, Grouped, Flat;
      assert Grouped(ledger) by { SoundIsOk(View()); }
      var kept, boundary := Compact(ledger);
      CuttingKeepsSound(View(), kept);
      ledger := kept;
    }

    /** Books a new order. */
    method Place(o: Order)
      requires Valid() && OrderOk(o)
      modifies this
      ensures Valid() && View() == old(View()).(orders := old(orders) + [o])
    {
      hide Sound;
      PlacingKeepsSound(View(), o);
      orders := orders + [o];
    }

    /** Repays part of a loan, all or nothing. */
    method RepayLoan(id: AccountId, amount: int) returns (error: Option<RuleError>)
      requires Valid() && id.Owned? && id in accounts && House(Bank, id.market) in accounts
      modifies this
      ensures Valid()
      ensures error.Some? ==> View() == old(View())
      ensures var r := Repay(old(View()), id, amount);
        error == (if r.Failure? then Some(r.error) else None) && (r.Success? ==> View() == r.value)
    {
      hide Sound, Repay;
      var r := Repay(View(), id, amount);
      if r.Failure? { return Some(r.error); }
      RepayKeepsSound(View(), id, amount);
      Commit(r.value);
      return None;
    }

    /** Moves cash between markets, all or nothing. */
    method MoveCash(owner: string, from: Market, to: Market, amount: int, inSeason: bool)
      returns (error: Option<RuleError>)
      requires Valid() && Owned(owner, from) in accounts && Owned(owner, to) in accounts
      modifies this
      ensures Valid()
      ensures error.Some? ==> View() == old(View())
      ensures var r := Transfer(old(View()), owner, from, to, amount, inSeason);
        error == (if r.Failure? then Some(r.error) else None) && (r.Success? ==> View() == r.value)
      ensures error.None? ==>
        && from != to && Owned(owner, from) in accounts && Owned(owner, to) in accounts
        && accounts[Owned(owner, from)].cash == old(accounts)[Owned(owner, from)].cash - amount
        && accounts[Owned(owner, to)].cash == old(accounts)[Owned(owner, to)].cash + Exchange(amount, from, to).received
    {
      hide Sound, Transfer, WorldOk, Exchange;
      assert WorldOk(View()) by { SoundIsOk(View()); }
      var r := Transfer(View(), owner, from, to, amount, inSeason);
      if r.Failure? { return Some(r.error); }
      TransferKeepsSound(View(), owner, from, to, amount, inSeason);
      TransferKeepsWorld(View(), owner, from, to, amount, inSeason);
      TransferKeepsRest(View(), owner, from, to, amount, inSeason);
      Commit(r.value);
      return None;
    }
  }

  lemma CuttingKeepsSound(w: World, kept: seq<Entry>)
    requires Sound(w) && Grouped(kept) && Flat(kept)
    ensures Sound(w.(ledger := kept))
  {
    hide WorldOk, Grouped;
    LedgerIsNoPart(w, kept);
  }

  lemma LedgerIsNoPart(w: World, ledger: seq<Entry>)
    requires WorldOk(w)
    ensures WorldOk(w.(ledger := ledger)) && forall x: Measure :: Sum(w.(ledger := ledger), x) == Sum(w, x)
  {
    hide AccountOk;
    forall x: Measure
      ensures Sum(w.(ledger := ledger), x) == Sum(w, x)
    {
    }
  }

  lemma SoundOrders(w: World)
    requires Sound(w)
    ensures forall i :: 0 <= i < |w.orders| ==> OrderOk(w.orders[i])
    ensures forall s :: s in w.quotes ==> w.quotes[s] >= 0
  {
  }

  lemma SoundIsOk(w: World)
    requires Sound(w)
    ensures WorldOk(w) && Grouped(w.ledger) && Safe(w, {})
  {
  }

  /** The account is there with its capital, the treasury has paid it, and nothing else has changed. */
  ghost predicate Opened(v: World, w: World, id: AccountId, actor: Actor, cash: int) {
    var treasury := House(Treasury, id.market);
    && treasury in w.accounts
    && v == w.(ids := w.ids + [id], accounts := v.accounts, ledger := v.ledger, nextId := v.nextId)
    && v.accounts == w.accounts[treasury := Richer(w.accounts[treasury], -cash)]
                               [id := EmptyAccount(id, actor).(cash := cash)]
  }

  /** When a posting goes through. */
  lemma PostsExactlyWhen(w: World, from: AccountId, to: AccountId, amount: nat, reference: int)
    requires from in w.accounts && to in w.accounts && from != to && from.market == to.market
    ensures PostCash(w, from, to, amount, reference).Success? <==>
      && -MAX_AMOUNT <= w.accounts[from].cash - amount <= MAX_AMOUNT
      && -MAX_AMOUNT <= w.accounts[to].cash + amount <= MAX_AMOUNT
  {
  }

  /** An account can be opened exactly when the treasury can issue its capital. */
  lemma OpensExactlyWhen(w: World, id: AccountId, actor: Actor, cash: nat)
    requires WorldOk(w) && id.Owned? && id !in w.accounts
    ensures House(Treasury, id.market) in w.accounts
    ensures OpenAccount(w, id, actor, cash).Success? <==>
      || cash == 0
      || (cash <= MAX_AMOUNT && -MAX_AMOUNT <= w.accounts[House(Treasury, id.market)].cash - cash <= MAX_AMOUNT)
  {
    hide WorldOk, PostCash;
    DesksExist(w, id.market);
    if cash > 0 {
      var v := w.(ids := w.ids + [id], accounts := w.accounts[id := EmptyAccount(id, actor)], nextId := w.nextId + 1);
      PostsExactlyWhen(v, House(Treasury, id.market), id, cash, w.nextId + 1);
    }
  }

  lemma OpeningShape(w: World, id: AccountId, actor: Actor, cash: nat)
    requires WorldOk(w) && id.Owned? && id !in w.accounts && OpenAccount(w, id, actor, cash).Success?
    ensures Opened(OpenAccount(w, id, actor, cash).value, w, id, actor, cash)
  {
    hide WorldOk, PostCash;
    DesksExist(w, id.market);
    var treasury := House(Treasury, id.market);
    var v := w.(ids := w.ids + [id], accounts := w.accounts[id := EmptyAccount(id, actor)]);
    if cash == 0 {
      assert Richer(w.accounts[treasury], -cash) == w.accounts[treasury];
    } else {
      PostingShape(v.(nextId := v.nextId + 1), treasury, id, cash, v.nextId + 1);
      assert v.accounts[treasury] == w.accounts[treasury];
    }
  }
}
