/**
 A trade from validation to the last fee, all or nothing. Every settled trade conserves value in each
 market, the bank's books and each symbol's shares; keeps every account sound; never spends cash
 that other live orders have reserved (except in a sale); and respects the borrow pool.
 */
module Trades {
  import opened Wrappers
  import opened Numbers
  import opened Money
  import opened Accounts
  import opened Lots
  import opened Settlement
  import opened SettlementSteps

  datatype Trade = Trade(world: World, buy: Order, sell: Order)

  /** What the callers of a settlement see to. */
  ghost predicate Settleable(w: World, buy: Order, sell: Order, price: int, quantity: int) {
    && WorldOk(w) && buy.account in w.accounts && sell.account in w.accounts && buy.account.Owned?
    && sell.account.Owned?
    && buy.side.Buying() && sell.side.Selling() && buy.symbol == sell.symbol
    && price >= 1 && quantity >= 1 && buy.filled >= 0 && sell.filled >= 0
    && (forall i :: 0 <= i < |w.orders| ==> w.orders[i].remaining >= 0)
  }

  lemma HouseFacts(w: World, id: AccountId, symbol: string)
    requires WorldOk(w) && id in w.accounts
    ensures House(Bank, id.market) in w.accounts && House(FeeDesk, id.market) in w.accounts
    ensures PositionOk(PositionOf(w.accounts[id], symbol)) && w.accounts[id].leverage >= 1 && w.accounts[id].id == id
  {
    AccountFacts(w, id, symbol);
    assert House(FeeDesk, id.market) in w.accounts && w.accounts[House(FeeDesk, id.market)].actor == System;
  }

  lemma {:induction false} ReservedIsNotNegative(orders: seq<Order>, a: Account, symbol: string, side: Side,
                                                 except: string)
    requires forall i :: 0 <= i < |orders| ==> orders[i].remaining >= 0
    ensures ReservedQuantity(orders, a, symbol, side, except) >= 0
  {
    if orders != [] { ReservedIsNotNegative(orders[1..], a, symbol, side, except); }
  }

  /** A validated cover never exceeds what is short. */
  lemma ValidatedFits(w: World, o: Order, price: int, quantity: int)
    requires WorldOk(w) && o.account in w.accounts && quantity >= 1 && ValidateFill(w, o, price, quantity).None?
    requires forall i :: 0 <= i < |w.orders| ==> w.orders[i].remaining >= 0
    ensures Fits(w, o, quantity)
  {
    ReservedIsNotNegative(w.orders, w.accounts[o.account], o.symbol, Cover, o.id);
  }

  lemma FinishKeepsWorld(w: World, o: Order, price: int, quantity: int, reference: int)
    requires WorldOk(w) && o.account in w.accounts && o.account.Owned? && House(FeeDesk, o.account.market) in w.accounts
    requires o.filled >= 0 && quantity >= 1 && FinishSide(w, o, price, quantity, reference).Success?
    ensures var f := FinishSide(w, o, price, quantity, reference).value;
      var fee := Fees(o.account.market, o.side, price * quantity);
      && fee >= 0 && WorldOk(f.world) && f.world.accounts.Keys == w.accounts.Keys
      && f.world == w.(accounts := f.world.accounts, ledger := f.world.ledger, nextId := f.world.nextId,
                       sequence := f.world.sequence)
      && OnlyTouches(f.world, w, o.account, House(FeeDesk, o.account.market)) && SameSums(f.world, w)
      && f.world.accounts[o.account] == Richer(w.accounts[o.account], -fee) && f.world.accounts[o.account].cash >= 0
      && f.order == FilledOrder(o, price, quantity, w.sequence + 1)
      && f.world.sequence == w.sequence + if ShowsNext(o, quantity) then 1 else 0
  {
    hide AccountOk, FilledOrder, Fees;
    var fee := Fees(o.account.market, o.side, price * quantity);
    var desk := House(FeeDesk, o.account.market);
    var v := PostCash(w, o.account, desk, fee, reference).value;
    var f := FinishSide(w, o, price, quantity, reference).value;
    PostingShape(w, o.account, desk, fee, reference);
    PostingKeepsWorld(w, o.account, desk, fee, reference);
    SequenceIsNoPart(v, f.world);
    forall x: Measure
      ensures Sum(f.world, x) == Sum(w, x)
    {
      PostingSum(w, o.account, desk, fee, reference, x);
    }
  }

  /** Sums and soundness look at accounts and ledger only. */
  lemma SequenceIsNoPart(v: World, u: World)
    requires u == v.(sequence := u.sequence)
    ensures WorldOk(v) <==> WorldOk(u)
    ensures forall x: Measure :: Sum(u, x) == Sum(v, x)
  {
    hide AccountOk;
    forall x: Measure
      ensures Sum(u, x) == Sum(v, x)
    {
    }
  }

  /** The middle of a trade: the buyer's position, the money, the seller's position. */
  function Swap(w: World, buy: Order, sell: Order, price: int, quantity: int): Result<World, RuleError>
    requires Settleable(w, buy, sell, price, quantity) && buy.account != sell.account
    requires ValidateFill(w, buy, price, quantity).None? && ValidateFill(w, sell, price, quantity).None?
  {
    var reference, turnover := w.nextId + 1, price * quantity;
    var w0 := w.(nextId := reference);
    HouseFacts(w, buy.account, buy.symbol);
    var w1 :- ChangePosition(w0, buy, turnover, price, quantity, reference);
    BuyerChanged(w, buy, sell, price, quantity);
    var w2 :- PostCash(w1, buy.account, sell.account, turnover, reference);
    MoneyMoved(w1, buy.account, sell.account, turnover, reference, sell.symbol);
    ChangePosition(w2, sell, turnover, price, quantity, reference)
  }

  lemma NextIdIsNoPart(w: World, n: int)
    requires WorldOk(w)
    ensures WorldOk(w.(nextId := n)) && forall x: Measure :: Sum(w.(nextId := n), x) == Sum(w, x)
  {
    hide AccountOk;
    forall x: Measure
      ensures Sum(w.(nextId := n), x) == Sum(w, x)
    {
    }
  }

  lemma BuyerChanged(w: World, buy: Order, sell: Order, price: int, quantity: int)
    requires Settleable(w, buy, sell, price, quantity) && buy.account != sell.account
    requires ValidateFill(w, buy, price, quantity).None?
    requires House(Bank, buy.account.market) in w.accounts
    requires PositionOk(PositionOf(w.accounts[buy.account], buy.symbol)) && w.accounts[buy.account].leverage >= 1
    requires ChangePosition(w.(nextId := w.nextId + 1), buy, price * quantity, price, quantity, w.nextId + 1).Success?
    ensures var w1 := ChangePosition(w.(nextId := w.nextId + 1), buy, price * quantity, price, quantity,
                                     w.nextId + 1).value;
      && buy.account in w1.accounts && sell.account in w1.accounts && WorldOk(w1)
      && w1.accounts[sell.account] == w.accounts[sell.account]
      && Changed(w.(nextId := w.nextId + 1), buy, price * quantity, quantity, w1)
  {
    hide AccountOk, ChangePosition, MovesSums, ValidateFill, PositionOk;
    var w0 := w.(nextId := w.nextId + 1);
    NextIdIsNoPart(w, w.nextId + 1);
    ValidatedFits(w, buy, price, quantity);
    TurnoverIsNotNegative(price, quantity);
    PositionChanges(w0, buy, price * quantity, price, quantity, w.nextId + 1);
  }

  lemma TurnoverIsNotNegative(price: int, quantity: int)
    requires price >= 1 && quantity >= 1
    ensures price * quantity >= 0
  {
  }

  /** The money for the shares changes hands. */
  lemma MoneyMoved(w: World, from: AccountId, to: AccountId, amount: int, reference: int, symbol: string)
    requires WorldOk(w) && from in w.accounts && to in w.accounts && from != to && from.Owned? && to.Owned?
    requires PostCash(w, from, to, amount, reference).Success?
    ensures var v := PostCash(w, from, to, amount, reference).value;
      && WorldOk(v) && to in v.accounts && House(Bank, to.market) in v.accounts
      && PositionOk(PositionOf(v.accounts[to], symbol)) && v.accounts[to].leverage >= 1
      && v.accounts[to] == Richer(w.accounts[to], amount) && v.accounts[from] == Richer(w.accounts[from], -amount)
      && OnlyTouches(v, w, from, to) && Frame(v, w)
      && (forall x: Measure :: Sum(v, x) == Sum(w, x))
      && (forall m :: Balance(v.ledger, m) == Balance(w.ledger, m))
  {
    hide AccountOk, PositionOk, PostCash, Balance, Sum;
    PostingShape(w, from, to, amount, reference);
    PostingKeepsWorld(w, from, to, amount, reference);
    var v := PostCash(w, from, to, amount, reference).value;
    HouseFacts(v, to, symbol);
    forall x: Measure
      ensures Sum(v, x) == Sum(w, x)
    {
      PostingSum(w, from, to, amount, reference, x);
    }
  }

  /** The shares side of a trade: nothing appears or disappears, and only shorts and covers move the pool. */
  function PoolChange(x: Measure, symbol: string, buy: Side, sell: Side, quantity: int): int {
    if x == Shorts(symbol) then (if sell.Short? then quantity else 0) - (if buy.Cover? then quantity else 0) else 0
  }

  lemma DeltasCancel(x: Measure, symbol: string, buy: Side, sell: Side, quantity: int)
    requires buy.Buying() && sell.Selling()
    ensures Delta(x, symbol, buy, quantity) + Delta(x, symbol, sell, quantity)
      == PoolChange(x, symbol, buy, sell, quantity)
  {
  }

  /** What the middle of a trade leaves: the promise that the rest of a settlement builds on. */
  ghost predicate Swapped(w: World, buy: Order, sell: Order, price: int, quantity: int, v: World)
    requires Settleable(w, buy, sell, price, quantity)
  {
    HouseFacts(w, buy.account, buy.symbol);
    HouseFacts(w, sell.account, sell.symbol);
    && WorldOk(v) && v == w.(accounts := v.accounts, ledger := v.ledger, nextId := v.nextId)
    && v.accounts.Keys == w.accounts.Keys
    && (forall x: Measure :: Sum(v, x) == Sum(w, x) + PoolChange(x, buy.symbol, buy.side, sell.side, quantity))
    && (forall m :: Balance(v.ledger, m) == Balance(w.ledger, m))
    && (forall id :: id in w.accounts && id.Owned? && id != buy.account && id != sell.account ==>
        v.accounts[id] == w.accounts[id])
    && v.accounts[buy.account].cash
       == w.accounts[buy.account].cash + CashChange(w, buy, price * quantity, quantity) - price * quantity
    && v.accounts[sell.account].cash
       == w.accounts[sell.account].cash + price * quantity + CashChange(w, sell, price * quantity, quantity)
    && v.accounts[buy.account].leverage == w.accounts[buy.account].leverage
    && v.accounts[sell.account].leverage == w.accounts[sell.account].leverage
  }

  lemma SwapKeepsWorld(w: World, buy: Order, sell: Order, price: int, quantity: int)
    requires Settleable(w, buy, sell, price, quantity) && buy.account != sell.account
    requires ValidateFill(w, buy, price, quantity).None? && ValidateFill(w, sell, price, quantity).None?
    requires Swap(w, buy, sell, price, quantity).Success?
    ensures Swapped(w, buy, sell, price, quantity, Swap(w, buy, sell, price, quantity).value)
  {
    hide AccountOk, ChangePosition, ValidateFill, PositionOk, PostCash, Delta, PoolChange, WorldOk, CashChange;
    var reference, turnover := w.nextId + 1, price * quantity;
    var w0 := w.(nextId := reference);
    HouseFacts(w, buy.account, buy.symbol);
    HouseFacts(w, sell.account, sell.symbol);
    var w1 := ChangePosition(w0, buy, turnover, price, quantity, reference).value;
    BuyerChanged(w, buy, sell, price, quantity);
    var w2 := PostCash(w1, buy.account, sell.account, turnover, reference).value;
    MoneyMoved(w1, buy.account, sell.account, turnover, reference, sell.symbol);
    SellerFits(w, w2, sell, price, quantity);
    TurnoverIsNotNegative(price, quantity);
    PositionChanges(w2, sell, turnover, price, quantity, reference);
    var v := ChangePosition(w2, sell, turnover, price, quantity, reference).value;
    SameCashChange(w, w0, buy, turnover, quantity);
    SameCashChange(w, w2, sell, turnover, quantity);
    NextIdIsNoPart(w, reference);
    forall x: Measure
      ensures Sum(v, x) == Sum(w, x) + PoolChange(x, buy.symbol, buy.side, sell.side, quantity)
    {
      DeltasCancel(x, buy.symbol, buy.side, sell.side, quantity);
    }
  }

  /** Cash does not enter into what a position change brings. */
  lemma SameCashChange(w: World, v: World, o: Order, turnover: int, quantity: int)
    requires o.account in w.accounts && o.account in v.accounts && v.days == w.days
    requires v.accounts[o.account]
      == Richer(w.accounts[o.account], v.accounts[o.account].cash - w.accounts[o.account].cash)
    requires PositionOk(PositionOf(w.accounts[o.account], o.symbol)) && w.accounts[o.account].leverage >= 1
    ensures PositionOk(PositionOf(v.accounts[o.account], o.symbol)) && v.accounts[o.account].leverage >= 1
    ensures CashChange(v, o, turnover, quantity) == CashChange(w, o, turnover, quantity)
  {
    hide RemoveLots;
  }

  lemma SellerFits(w: World, w2: World, sell: Order, price: int, quantity: int)
    requires sell.account in w.accounts && sell.account in w2.accounts && sell.side.Selling() && quantity >= 1
    ensures Fits(w2, sell, quantity)
  {
  }

  /** One trade from validation to the last fee, or the first error. */
  function SettleTrade(w: World, buy: Order, sell: Order, price: int, quantity: int): Result<Trade, RuleError>
    requires Settleable(w, buy, sell, price, quantity)
  {
    if buy.account == sell.account then Failure(SelfTrade)
    else if ValidateFill(w, buy, price, quantity).Some? then Failure(ValidateFill(w, buy, price, quantity).value)
    else if ValidateFill(w, sell, price, quantity).Some? then Failure(ValidateFill(w, sell, price, quantity).value)
    else
      var v :- Swap(w, buy, sell, price, quantity);
      SwapKeepsWorld(w, buy, sell, price, quantity);
      HouseFacts(v, buy.account, buy.symbol);
      var b :- FinishSide(v, buy, price, quantity, w.nextId + 1);
      FinishKeepsWorld(v, buy, price, quantity, w.nextId + 1);
      HouseFacts(b.world, sell.account, sell.symbol);
      var s :- FinishSide(b.world, sell, price, quantity, w.nextId + 1);
      Success(Trade(s.world.(quotes := s.world.quotes[buy.symbol := price]), b.order, s.order))
  }

  /** Quotes are no part of the sums either. */
  lemma QuotesAreNoPart(v: World, u: World)
    requires u == v.(quotes := u.quotes)
    ensures WorldOk(v) <==> WorldOk(u)
    ensures forall x: Measure :: Sum(u, x) == Sum(v, x)
  {
    hide AccountOk;
    forall x: Measure
      ensures Sum(u, x) == Sum(v, x)
    {
    }
  }

  /** Everything a settled trade promises about the world. */
  lemma SettledTradeKeepsWorld(w: World, buy: Order, sell: Order, price: int, quantity: int)
    requires Settleable(w, buy, sell, price, quantity) && SettleTrade(w, buy, sell, price, quantity).Success?
    ensures var t := SettleTrade(w, buy, sell, price, quantity).value;
      && WorldOk(t.world) && t.world.accounts.Keys == w.accounts.Keys && t.world.ids == w.ids
      && t.world.orders == w.orders && t.world.days == w.days
      && t.world.quotes == w.quotes[buy.symbol := price]
      && (forall x: Measure :: Sum(t.world, x) == Sum(w, x) + PoolChange(x, buy.symbol, buy.side, sell.side, quantity))
      && (forall m :: Balance(t.world.ledger, m) == Balance(w.ledger, m))
      && (forall id :: id in w.accounts && id.Owned? && id != buy.account && id != sell.account ==>
          t.world.accounts[id] == w.accounts[id])
      && t.world.accounts[buy.account].cash >= 0 && t.world.accounts[sell.account].cash >= 0
      && t.buy == FilledOrder(buy, price, quantity, w.sequence + 1)
      && t.sell == FilledOrder(sell, price, quantity, w.sequence + 1 + if ShowsNext(buy, quantity) then 1 else 0)
  {
    hide AccountOk, ValidateFill, WorldOk, Swap, FinishSide, FilledOrder, Fees, PoolChange, CashChange, ShowsNext;
    SwapKeepsWorld(w, buy, sell, price, quantity);
    var v := Swap(w, buy, sell, price, quantity).value;
    HouseFacts(v, buy.account, buy.symbol);
    FinishKeepsWorld(v, buy, price, quantity, w.nextId + 1);
    var b := FinishSide(v, buy, price, quantity, w.nextId + 1).value;
    HouseFacts(b.world, sell.account, sell.symbol);
    FinishKeepsWorld(b.world, sell, price, quantity, w.nextId + 1);
    var s := FinishSide(b.world, sell, price, quantity, w.nextId + 1).value;
    QuotesAreNoPart(s.world, s.world.(quotes := s.world.quotes[buy.symbol := price]));
  }

  /** The stages of a settled trade, one account at a time. */
  lemma SettledStages(w: World, buy: Order, sell: Order, price: int, quantity: int) returns (v: World)
    requires Settleable(w, buy, sell, price, quantity) && SettleTrade(w, buy, sell, price, quantity).Success?
    ensures Swapped(w, buy, sell, price, quantity, v)
    ensures var t, turnover := SettleTrade(w, buy, sell, price, quantity).value, price * quantity;
      && buy.account in v.accounts && sell.account in v.accounts && buy.account in t.world.accounts
      && sell.account in t.world.accounts
      && t.world.accounts[buy.account] == Richer(v.accounts[buy.account], -Fees(buy.account.market, buy.side, turnover))
      && t.world.accounts[sell.account] == Richer(v.accounts[sell.account],
                                                  -Fees(sell.account.market, sell.side, turnover))
      && v.accounts[buy.account].id == buy.account && v.accounts[sell.account].id == sell.account
  {
    hide AccountOk, ValidateFill, WorldOk, Swap, FinishSide, FilledOrder, Fees, PoolChange, CashChange, SameSums,
         PositionOk, Swapped, Richer, ShowsNext;
    SwapKeepsWorld(w, buy, sell, price, quantity);
    v := Swap(w, buy, sell, price, quantity).value;
    SwappedIsSound(w, buy, sell, price, quantity, v);
    HouseFacts(v, buy.account, buy.symbol);
    HouseFacts(v, sell.account, sell.symbol);
    FinishKeepsWorld(v, buy, price, quantity, w.nextId + 1);
    var b := FinishSide(v, buy, price, quantity, w.nextId + 1).value;
    HouseFacts(b.world, sell.account, sell.symbol);
    FinishKeepsWorld(b.world, sell, price, quantity, w.nextId + 1);
  }

  lemma SwappedIsSound(w: World, buy: Order, sell: Order, price: int, quantity: int, v: World)
    requires Settleable(w, buy, sell, price, quantity) && Swapped(w, buy, sell, price, quantity, v)
    ensures WorldOk(v) && v.accounts.Keys == w.accounts.Keys
  {
    hide AccountOk, CashChange, PoolChange;
  }

  lemma SwappedCash(w: World, buy: Order, sell: Order, price: int, quantity: int, v: World)
    requires Settleable(w, buy, sell, price, quantity) && Swapped(w, buy, sell, price, quantity, v)
    requires w.accounts[buy.account].leverage >= 1 && w.accounts[sell.account].leverage >= 1
    requires PositionOk(PositionOf(w.accounts[buy.account], buy.symbol))
    requires PositionOk(PositionOf(w.accounts[sell.account], sell.symbol))
    ensures buy.account in v.accounts && sell.account in v.accounts
    ensures v.accounts[buy.account].cash
      == w.accounts[buy.account].cash + CashChange(w, buy, price * quantity, quantity) - price * quantity
    ensures v.accounts[sell.account].cash
      == w.accounts[sell.account].cash + price * quantity + CashChange(w, sell, price * quantity, quantity)
    ensures v.accounts[buy.account].leverage == w.accounts[buy.account].leverage
    ensures v.accounts[sell.account].leverage == w.accounts[sell.account].leverage
  {
    hide AccountOk, WorldOk, CashChange, PoolChange;
  }

  /** To the cent: what a trade does to the cash of either party. */
  lemma SettledCash(w: World, buy: Order, sell: Order, price: int, quantity: int)
    requires Settleable(w, buy, sell, price, quantity) && SettleTrade(w, buy, sell, price, quantity).Success?
    ensures w.accounts[buy.account].leverage >= 1 && w.accounts[sell.account].leverage >= 1
    ensures PositionOk(PositionOf(w.accounts[buy.account], buy.symbol))
    ensures PositionOk(PositionOf(w.accounts[sell.account], sell.symbol))
    ensures var t, turnover := SettleTrade(w, buy, sell, price, quantity).value, price * quantity;
      && buy.account in t.world.accounts && sell.account in t.world.accounts
      && t.world.accounts[buy.account].cash == w.accounts[buy.account].cash
         + CashChange(w, buy, turnover, quantity) - turnover - Fees(buy.account.market, buy.side, turnover)
      && t.world.accounts[sell.account].cash == w.accounts[sell.account].cash + turnover
         + CashChange(w, sell, turnover, quantity) - Fees(sell.account.market, sell.side, turnover)
      && t.world.accounts[buy.account].leverage == w.accounts[buy.account].leverage
      && t.world.accounts[buy.account].id == buy.account
      && t.world.accounts[sell.account].leverage == w.accounts[sell.account].leverage
      && t.world.accounts[sell.account].id == sell.account
  {
    hide AccountOk, WorldOk, SettleTrade, Fees, CashChange, PositionOk, Swapped;
    HouseFacts(w, buy.account, buy.symbol);
    HouseFacts(w, sell.account, sell.symbol);
    var v := SettledStages(w, buy, sell, price, quantity);
    SwappedCash(w, buy, sell, price, quantity, v);
  }

  /** A validated fill can be paid for out of unreserved cash. */
  lemma ValidatedIsPaid(w: World, o: Order, price: int, quantity: int)
    requires o.account in w.accounts && price >= 1 && quantity >= 1 && ValidateFill(w, o, price, quantity).None?
    requires PositionOk(PositionOf(w.accounts[o.account], o.symbol)) && w.accounts[o.account].leverage >= 1
    requires w.accounts[o.account].id == o.account
    ensures o.side.Sell? || Available(w, w.accounts[o.account], o.id) + CashChange(w, o, price * quantity, quantity) >=
      (if o.side.Short? then 0 else price * quantity) + Fees(o.account.market, o.side, price * quantity)
  {
    hide Fees, Available, RemoveLots, Ceil, Share, Sum;
  }

  /** A buy, a cover or a short never spends cash that the account's other live orders have set aside. */
  lemma ReservedCashIsSafe(w: World, buy: Order, sell: Order, price: int, quantity: int)
    requires Settleable(w, buy, sell, price, quantity) && SettleTrade(w, buy, sell, price, quantity).Success?
    ensures var t := SettleTrade(w, buy, sell, price, quantity).value;
      && buy.account in t.world.accounts && sell.account in t.world.accounts
      && t.world.accounts[buy.account].cash >= ReservedCash(w, w.orders, w.accounts[buy.account], buy.id)
      && (sell.side.Short? ==>
          t.world.accounts[sell.account].cash
            >= ReservedCash(w, w.orders, w.accounts[sell.account], sell.id) + price * quantity)
  {
    hide AccountOk, WorldOk, Fees, ReservedCash, SettleTrade, ValidateFill, CashChange, PositionOk;
    SettledCash(w, buy, sell, price, quantity);
    SettledIsValid(w, buy, sell, price, quantity);
    ValidatedIsPaid(w, buy, price, quantity);
    ValidatedIsPaid(w, sell, price, quantity);
  }

  lemma SettledIsValid(w: World, buy: Order, sell: Order, price: int, quantity: int)
    requires Settleable(w, buy, sell, price, quantity) && SettleTrade(w, buy, sell, price, quantity).Success?
    ensures buy.account != sell.account && ValidateFill(w, buy, price, quantity).None?
    ensures ValidateFill(w, sell, price, quantity).None?
    ensures w.accounts[buy.account].id == buy.account && w.accounts[sell.account].id == sell.account
  {
    hide AccountOk, ValidateFill;
  }

  /** The loan on the shares that a sale takes, lot by lot. */
  function LoanOn(w: World, o: Order, quantity: int): int
    requires o.account in w.accounts && PositionOk(PositionOf(w.accounts[o.account], o.symbol))
  {
    var a := w.accounts[o.account];
    RemoveLots(PositionOf(a, o.symbol).lots, quantity, a.id.market, a.actor, DayOf(w, a.id.market)).debt
  }

  lemma LoanIsChange(w: World, o: Order, turnover: int, quantity: int)
    requires o.account in w.accounts && PositionOk(PositionOf(w.accounts[o.account], o.symbol))
    requires w.accounts[o.account].leverage >= 1
    ensures o.side.Sell? ==> CashChange(w, o, turnover, quantity) == -LoanOn(w, o, quantity)
  {
  }

  /**
   A sale is different: the loan on the shares sold is repaid out of the proceeds, and where they fall
   short, out of whatever cash there is. It leaves reserved cash alone exactly when proceeds and free
   cash cover the loan and the fee.
   */
  lemma SaleSparesReservedCash(w: World, buy: Order, sell: Order, price: int, quantity: int)
    requires Settleable(w, buy, sell, price, quantity) && SettleTrade(w, buy, sell, price, quantity).Success?
    requires sell.side.Sell?
    ensures sell.account in SettleTrade(w, buy, sell, price, quantity).value.world.accounts
    ensures PositionOk(PositionOf(w.accounts[sell.account], sell.symbol))
    ensures
      var v, a := SettleTrade(w, buy, sell, price, quantity).value.world, w.accounts[sell.account];
      v.accounts[sell.account].cash >= ReservedCash(w, w.orders, a, sell.id) <==>
        LoanOn(w, sell, quantity) + Fees(sell.account.market, Sell, price * quantity)
          <= price * quantity + Available(w, a, sell.id)
  {
    hide AccountOk, WorldOk, Fees, ReservedCash, SettleTrade, CashChange, PositionOk, LoanOn;
    SettledCash(w, buy, sell, price, quantity);
    LoanIsChange(w, sell, price * quantity, quantity);
  }

  /** The borrow pool of every symbol stays within its limit. */
  lemma BorrowPoolHolds(w: World, buy: Order, sell: Order, price: int, quantity: int)
    requires Settleable(w, buy, sell, price, quantity) && SettleTrade(w, buy, sell, price, quantity).Success?
    requires forall s :: Sum(w, Shorts(s)) <= BORROW_POOL
    ensures forall s :: Sum(SettleTrade(w, buy, sell, price, quantity).value.world, Shorts(s)) <= BORROW_POOL
  {
    hide AccountOk, WorldOk, Swap, FinishSide, FilledOrder, Fees, ReservedCash, SettleTrade, Ceil, Sum;
    SettledTradeKeepsWorld(w, buy, sell, price, quantity);
    SettledIsValid(w, buy, sell, price, quantity);
  }

  /** Whether an order's reservation follows the quote of `symbol`. */
  predicate FollowsQuote(o: Order, symbol: string) { o.price.None? && o.triggerPrice.None? && o.symbol == symbol }

  /**
   A trade that fills orders `i` and `j` leaves what other accounts have set aside as it was, unless
   it follows the quote.
   */
  lemma {:induction false} ReservationsStay(w: World, v: World, before: seq<Order>, after: seq<Order>, a: Account,
                                            except: string, symbol: string, price: int)
    requires v.quotes == w.quotes[symbol := price] && |after| == |before|
    requires forall k :: 0 <= k < |before| ==>
      after[k].account == before[k].account && (before[k].account == a.id ==> after[k] == before[k])
    requires forall k :: 0 <= k < |before| && before[k].account == a.id && before[k].id != except && Live(before[k]) ==>
      !FollowsQuote(before[k], symbol)
    ensures ReservedCash(v, after, a, except) == ReservedCash(w, before, a, except)
  {
    if before != [] {
      assert before[0].account == a.id && before[0].id != except && Live(before[0]) ==>
        ReferencePrice(v, before[0]) == ReferencePrice(w, before[0]);
      ReservationsStay(w, v, before[1..], after[1..], a, except, symbol, price);
    }
  }

  /** Third parties: their account, and the cash they have free, are what they were. */
  lemma BystandersKeepTheirCash(w: World, i: nat, j: nat, price: int, quantity: int, id: AccountId, except: string)
    requires i < |w.orders| && j < |w.orders| && Settleable(w, w.orders[i], w.orders[j], price, quantity)
    requires SettleTrade(w, w.orders[i], w.orders[j], price, quantity).Success?
    requires id in w.accounts && id.Owned? && id != w.orders[i].account && id != w.orders[j].account
    requires forall k :: 0 <= k < |w.orders| && w.orders[k].account == id && w.orders[k].id != except ==>
      Live(w.orders[k]) ==> !FollowsQuote(w.orders[k], w.orders[i].symbol)
    ensures var t := SettleTrade(w, w.orders[i], w.orders[j], price, quantity).value;
      var v := t.world.(orders := w.orders[i := t.buy][j := t.sell]);
      && id in v.accounts && v.accounts[id] == w.accounts[id]
      && Available(v, v.accounts[id], except) == Available(w, w.accounts[id], except)
  {
    hide AccountOk, SettleTrade, ReservedCash, PoolChange, Fees, Swap;
    SettledTradeKeepsWorld(w, w.orders[i], w.orders[j], price, quantity);
    var t := SettleTrade(w, w.orders[i], w.orders[j], price, quantity).value;
    var v := t.world.(orders := w.orders[i := t.buy][j := t.sell]);
    assert w.accounts[id].id == id;
    FilledKeepsAccount(w.orders[i], price, quantity, w.sequence + 1);
    FilledKeepsAccount(w.orders[j], price, quantity,
                       w.sequence + 1 + if ShowsNext(w.orders[i], quantity) then 1 else 0);
    hide Settleable, WorldOk, FilledOrder;
    ReservationsStay(w, v, w.orders, v.orders, w.accounts[id], except, w.orders[i].symbol, price);
  }

  lemma FilledKeepsAccount(o: Order, price: int, quantity: int, sequence: int)
    requires o.filled + quantity > 0
    ensures FilledOrder(o, price, quantity, sequence).account == o.account
  {
  }
}
