/**
 When a validated trade goes through. With balances far enough from the limit of safe amounts there
 is one thing left that can stop it: a sale whose proceeds and cash do not cover the loan and the fee.
 */
module SettlesWhen {
  import opened Numbers
  import opened Money
  import opened Accounts
  import opened Lots
  import opened Settlement
  import opened SettlementSteps
  import opened Trades

  /** Every balance may move by `d` either way without leaving the safe amounts. */
  ghost predicate Roomy(w: World, d: int) {
    forall id :: id in w.accounts ==> -MAX_AMOUNT + d <= w.accounts[id].cash <= MAX_AMOUNT - d
  }

  /** No balance of `v` is further than `d` from the balance in `w`. */
  ghost predicate Within(v: World, w: World, d: int) {
    forall id :: id in w.accounts ==> id in v.accounts && -d <= v.accounts[id].cash - w.accounts[id].cash <= d
  }

  lemma PostFits(w: World, u: World, from: AccountId, to: AccountId, amount: int, reference: int, d: int, e: int)
    requires Within(u, w, d) && Roomy(w, e) && from in w.accounts && to in w.accounts && from != to
    requires from.market == to.market
    requires 0 <= amount && 0 <= d && d + amount <= e
    ensures from in u.accounts && to in u.accounts && PostCash(u, from, to, amount, reference).Success?
    ensures Within(PostCash(u, from, to, amount, reference).value, w, d + amount)
  {
  }

  /** The most that a side's position change can move. */
  function SideFlow(w: World, o: Order, turnover: int): int
    requires o.account in w.accounts
  {
    var held := PositionOf(w.accounts[o.account], o.symbol);
    match o.side
    case Buy => turnover
    case Sell => LotDebt(held.lots)
    case Short => Collateral(turnover)
    case Cover => held.collateral
  }

  /** All money that a trade can move through one account. */
  function TradeFlow(w: World, buy: Order, sell: Order, turnover: int): int
    requires buy.account in w.accounts && sell.account in w.accounts
  {
    turnover + SideFlow(w, buy, turnover) + SideFlow(w, sell, turnover)
    + Fees(buy.account.market, buy.side, turnover) + Fees(sell.account.market, sell.side, turnover)
  }

  lemma BuyFits(w: World, u: World, o: Order, turnover: int, price: int, quantity: int, reference: int, d: int, e: int)
    requires WorldOk(u) && Within(u, w, d) && Roomy(w, e) && turnover >= 0 && quantity >= 1 && 0 <= d
    requires o.account in w.accounts && o.account.Owned? && w.accounts.Keys == u.accounts.Keys
    requires House(Bank, o.account.market) in w.accounts
    requires PositionOk(PositionOf(u.accounts[o.account], o.symbol)) && u.accounts[o.account].leverage >= 1
    requires d + SideFlow(u, o, turnover) <= e
    requires o.side.Buy?
    ensures ChangePosition(u, o, turnover, price, quantity, reference).Success?
    ensures Within(ChangePosition(u, o, turnover, price, quantity, reference).value, w, d + SideFlow(u, o, turnover))
    ensures SideFlow(u, o, turnover) >= 0
  {
    hide WorldOk, PostCash, RemoveLots, Ceil, Share, Sellable, LotDebt, Marked, WithPosition, Within, Roomy, LotsOk;
    WithinAt(u, w, d, o.account);
    AccountFacts(u, o.account, o.symbol);
    var a := u.accounts[o.account];
    var held := PositionOf(a, o.symbol);
    var loan := Borrowed(turnover, a.leverage);
    BorrowedIsPart(turnover, a.leverage);
    var v := u;
    if loan > 0 {
      LoanMoves(w, u, House(Bank, o.account.market), o.account, loan, reference, d, e);
      v := PostCash(u, House(Bank, o.account.market), o.account, loan, reference).value;
    }
    var b := WithPosition(v.accounts[o.account], o.symbol,
                          held.(lots := held.lots + [Lot(quantity, price, DayOf(u, a.id.market), loan)]))
               .(debt := v.accounts[o.account].debt + if loan > 0 then loan else 0);
    OnlyPositionsDiffer(v.accounts[o.account], o.symbol);
    ReplacedWithin(w, v, b, if loan > 0 then d + loan else d, d + turnover, o, reference);
  }

  lemma SellFits(w: World, u: World, o: Order, turnover: int, price: int, quantity: int, reference: int, d: int, e: int)
    requires WorldOk(u) && Within(u, w, d) && Roomy(w, e) && turnover >= 0 && quantity >= 1 && 0 <= d
    requires o.account in w.accounts && o.account.Owned? && w.accounts.Keys == u.accounts.Keys
    requires House(Bank, o.account.market) in w.accounts
    requires PositionOk(PositionOf(u.accounts[o.account], o.symbol)) && u.accounts[o.account].leverage >= 1
    requires d + SideFlow(u, o, turnover) <= e
    requires o.side.Sell?
    requires o.side.Sell? ==>
      var a := u.accounts[o.account];
      quantity <= Sellable(PositionOf(a, o.symbol).lots, a.id.market, a.actor, DayOf(u, a.id.market))
    ensures ChangePosition(u, o, turnover, price, quantity, reference).Success?
    ensures Within(ChangePosition(u, o, turnover, price, quantity, reference).value, w, d + SideFlow(u, o, turnover))
    ensures SideFlow(u, o, turnover) >= 0
  {
    hide WorldOk, PostCash, RemoveLots, Ceil, Share, Sellable, LotDebt, Marked, WithPosition, Within, Roomy, LotsOk;
    WithinAt(u, w, d, o.account);
    AccountFacts(u, o.account, o.symbol);
    var a := u.accounts[o.account];
    var held := PositionOf(a, o.symbol);
    var r := RemoveLots(held.lots, quantity, a.id.market, a.actor, DayOf(u, a.id.market));
    RemovalSucceeds(held.lots, quantity, a.id.market, a.actor, DayOf(u, a.id.market));
    RemovalIsExact(held.lots, quantity, a.id.market, a.actor, DayOf(u, a.id.market));
    LotDebtIsNatural(r.lots);
    var v := u;
    if r.debt > 0 {
      LoanMoves(w, u, o.account, House(Bank, o.account.market), r.debt, reference, d, e);
      v := PostCash(u, o.account, House(Bank, o.account.market), r.debt, reference).value;
    }
    var b := WithPosition(v.accounts[o.account], o.symbol,
                          held.(lots := r.lots)).(debt := v.accounts[o.account].debt - r.debt);
    OnlyPositionsDiffer(v.accounts[o.account], o.symbol);
    ReplacedWithin(w, v, b, if r.debt > 0 then d + r.debt else d, d + LotDebt(held.lots), o, reference);
  }

  lemma ShortFits(w: World, u: World, o: Order, turnover: int, price: int, quantity: int, reference: int, d: int,
                  e: int)
    requires WorldOk(u) && Within(u, w, d) && Roomy(w, e) && turnover >= 0 && quantity >= 1 && 0 <= d
    requires o.account in w.accounts && o.account.Owned? && w.accounts.Keys == u.accounts.Keys
    requires House(Bank, o.account.market) in w.accounts
    requires PositionOk(PositionOf(u.accounts[o.account], o.symbol)) && u.accounts[o.account].leverage >= 1
    requires d + SideFlow(u, o, turnover) <= e
    requires o.side.Short?
    ensures ChangePosition(u, o, turnover, price, quantity, reference).Success?
    ensures Within(ChangePosition(u, o, turnover, price, quantity, reference).value, w, d + SideFlow(u, o, turnover))
    ensures SideFlow(u, o, turnover) >= 0
  {
    hide WorldOk, PostCash, RemoveLots, Ceil, Share, Sellable, LotDebt, Marked, WithPosition, Within, Roomy, LotsOk;
    WithinAt(u, w, d, o.account);
    AccountFacts(u, o.account, o.symbol);
    var a := u.accounts[o.account];
    var held := PositionOf(a, o.symbol);
    CollateralIsNatural(turnover);
    var c := Collateral(turnover);
    var p := held.(shortQuantity := held.shortQuantity + quantity, shortProceeds := held.shortProceeds + turnover,
                   collateral := held.collateral + c);
    OnlyPositionsDiffer(a, o.symbol);
    ReplacedWithin(w, u, WithPosition(a, o.symbol, p).(cash := a.cash - c, collateral := a.collateral + c), d, d + c, o,
                   reference);
  }

  lemma CoverFits(w: World, u: World, o: Order, turnover: int, price: int, quantity: int, reference: int, d: int,
                  e: int)
    requires WorldOk(u) && Within(u, w, d) && Roomy(w, e) && turnover >= 0 && quantity >= 1 && 0 <= d
    requires o.account in w.accounts && o.account.Owned? && w.accounts.Keys == u.accounts.Keys
    requires House(Bank, o.account.market) in w.accounts
    requires PositionOk(PositionOf(u.accounts[o.account], o.symbol)) && u.accounts[o.account].leverage >= 1
    requires d + SideFlow(u, o, turnover) <= e
    requires o.side.Cover?
    requires o.side.Cover? ==> quantity <= PositionOf(u.accounts[o.account], o.symbol).shortQuantity
    ensures ChangePosition(u, o, turnover, price, quantity, reference).Success?
    ensures Within(ChangePosition(u, o, turnover, price, quantity, reference).value, w, d + SideFlow(u, o, turnover))
    ensures SideFlow(u, o, turnover) >= 0
  {
    hide WorldOk, PostCash, RemoveLots, Ceil, Share, Sellable, LotDebt, Marked, WithPosition, Within, Roomy, LotsOk;
    WithinAt(u, w, d, o.account);
    AccountFacts(u, o.account, o.symbol);
    var a := u.accounts[o.account];
    var held := PositionOf(a, o.symbol);
    ShareIsPart(held.collateral, quantity, held.shortQuantity);
    var released := Share(held.collateral, quantity, held.shortQuantity);
    var proceeds := Share(held.shortProceeds, quantity, held.shortQuantity);
    var p := held.(shortQuantity := held.shortQuantity - quantity, shortProceeds := held.shortProceeds - proceeds,
                   collateral := held.collateral - released);
    OnlyPositionsDiffer(a, o.symbol);
    var b := WithPosition(a, o.symbol, p).(cash := a.cash + released, collateral := a.collateral - released);
    ReplacedWithin(w, u, b, d, d + held.collateral, o, reference);
  }

  /** A position change of a validated side goes through. */
  lemma ChangeFits(w: World, u: World, o: Order, turnover: int, price: int, quantity: int, reference: int, d: int,
                   e: int)
    requires WorldOk(u) && Within(u, w, d) && Roomy(w, e) && turnover >= 0 && quantity >= 1 && 0 <= d
    requires o.account in w.accounts && o.account.Owned? && w.accounts.Keys == u.accounts.Keys
    requires House(Bank, o.account.market) in w.accounts
    requires PositionOk(PositionOf(u.accounts[o.account], o.symbol)) && u.accounts[o.account].leverage >= 1
    requires d + SideFlow(u, o, turnover) <= e
    requires o.side.Sell? ==>
      var a := u.accounts[o.account];
      quantity <= Sellable(PositionOf(a, o.symbol).lots, a.id.market, a.actor, DayOf(u, a.id.market))
    requires o.side.Cover? ==> quantity <= PositionOf(u.accounts[o.account], o.symbol).shortQuantity
    ensures ChangePosition(u, o, turnover, price, quantity, reference).Success?
    ensures Within(ChangePosition(u, o, turnover, price, quantity, reference).value, w, d + SideFlow(u, o, turnover))
    ensures SideFlow(u, o, turnover) >= 0
  {
    hide ChangePosition, SideFlow, Within, Roomy, Sellable;
    match o.side {
      case Buy => BuyFits(w, u, o, turnover, price, quantity, reference, d, e);
      case Sell => SellFits(w, u, o, turnover, price, quantity, reference, d, e);
      case Short => ShortFits(w, u, o, turnover, price, quantity, reference, d, e);
      case Cover => CoverFits(w, u, o, turnover, price, quantity, reference, d, e);
    }
  }

  /** The account that a position change puts in place, and its marker in the ledger. */
  lemma ReplacedWithin(w: World, v: World, b: Account, c: int, d: int, o: Order, reference: int)
    requires Within(v, w, c) && c <= d && b.id in w.accounts && -d <= b.cash - w.accounts[b.id].cash <= d
    ensures Within(Marked(WithAccount(v, b), o, reference), w, d)
  {
  }

  lemma WithinAt(v: World, w: World, d: int, id: AccountId)
    requires Within(v, w, d) && id in w.accounts
    ensures id in v.accounts && -d <= v.accounts[id].cash - w.accounts[id].cash <= d
  {
  }

  lemma LoanMoves(w: World, u: World, from: AccountId, to: AccountId, amount: int, reference: int, d: int, e: int)
    requires WorldOk(u) && Within(u, w, d) && Roomy(w, e) && from in w.accounts && to in w.accounts && from != to
    requires from.market == to.market
    requires 0 <= amount && 0 <= d && d + amount <= e && w.accounts.Keys == u.accounts.Keys
    ensures PostCash(u, from, to, amount, reference).Success?
    ensures var v := PostCash(u, from, to, amount, reference).value;
      && Within(v, w, d + amount) && v.accounts.Keys == u.accounts.Keys && v.days == u.days
      && v.accounts[from] == Richer(u.accounts[from], -amount) && v.accounts[to] == Richer(u.accounts[to], amount)
  {
    PostFits(w, u, from, to, amount, reference, d, e);
    PostingShape(u, from, to, amount, reference);
  }

  lemma {:induction false} LotDebtIsNatural(lots: seq<Lot>)
    requires LotsOk(lots)
    ensures LotDebt(lots) >= 0
  {
    if lots != [] { LotDebtIsNatural(lots[1..]); }
  }

  lemma CollateralIsNatural(turnover: int)
    requires turnover >= 0
    ensures 0 <= Collateral(turnover) <= turnover
  {
  }

  /** A trade between two accounts of one market that both pass validation. */
  ghost predicate Validated(w: World, buy: Order, sell: Order, price: int, quantity: int) {
    && Settleable(w, buy, sell, price, quantity) && buy.account != sell.account
    && buy.account.market == sell.account.market
    && ValidateFill(w, buy, price, quantity).None? && ValidateFill(w, sell, price, quantity).None?
  }

  lemma SellableEnough(w: World, v: World, o: Order, price: int, quantity: int)
    requires o.account in w.accounts && o.account in v.accounts && o.side.Sell? && v.days == w.days
    requires ValidateFill(w, o, price, quantity).None?
    requires v.accounts[o.account]
      == Richer(w.accounts[o.account], v.accounts[o.account].cash - w.accounts[o.account].cash)
    requires forall i :: 0 <= i < |w.orders| ==> w.orders[i].remaining >= 0
    ensures var a := v.accounts[o.account];
      quantity <= Sellable(PositionOf(a, o.symbol).lots, a.id.market, a.actor, DayOf(v, a.id.market))
  {
    hide Sellable, ReservedQuantity;
    ReservedIsNotNegative(w.orders, w.accounts[o.account], o.symbol, Sell, o.id);
  }

  lemma SameFlow(w: World, v: World, o: Order, turnover: int)
    requires o.account in w.accounts && o.account in v.accounts
    requires v.accounts[o.account]
      == Richer(w.accounts[o.account], v.accounts[o.account].cash - w.accounts[o.account].cash)
    ensures SideFlow(v, o, turnover) == SideFlow(w, o, turnover)
  {
  }

  /** The buyer's position and the money. */
  lemma PaymentFits(w: World, buy: Order, sell: Order, price: int, quantity: int, e: int)
    requires Validated(w, buy, sell, price, quantity) && Roomy(w, e)
    requires price * quantity + SideFlow(w, buy, price * quantity) <= e
    ensures House(Bank, buy.account.market) in w.accounts && PositionOk(PositionOf(w.accounts[buy.account], buy.symbol))
    ensures w.accounts[buy.account].leverage >= 1
    ensures var r := ChangePosition(w.(nextId := w.nextId + 1), buy, price * quantity, price, quantity, w.nextId + 1);
      && r.Success? && buy.account in r.value.accounts && sell.account in r.value.accounts
      && var p := PostCash(r.value, buy.account, sell.account, price * quantity, w.nextId + 1);
         && p.Success? && Within(p.value, w, price * quantity + SideFlow(w, buy, price * quantity))
         && SideFlow(w, buy, price * quantity) >= 0
  {
    hide AccountOk, WorldOk, ChangePosition, PostCash, ValidateFill, PositionOk, MovesSums, SideFlow, Sum;
    var reference, turnover := w.nextId + 1, price * quantity;
    var w0 := w.(nextId := reference);
    HouseFacts(w, buy.account, buy.symbol);
    NextIdIsNoPart(w, reference);
    TurnoverIsNotNegative(price, quantity);
    ValidatedFits(w, buy, price, quantity);
    SameFlow(w, w0, buy, turnover);
    assert Within(w0, w, 0);
    ChangeFits(w, w0, buy, turnover, price, quantity, reference, 0, e);
    BuyerChanged(w, buy, sell, price, quantity);
    PostFits(w, ChangePosition(w0, buy, turnover, price, quantity, reference).value, buy.account, sell.account,
             turnover, reference, SideFlow(w, buy, turnover), e);
  }

  lemma SwapFits(w: World, buy: Order, sell: Order, price: int, quantity: int, e: int)
    requires Validated(w, buy, sell, price, quantity) && Roomy(w, e)
    requires price * quantity + SideFlow(w, buy, price * quantity) + SideFlow(w, sell, price * quantity) <= e
    requires SideFlow(w, sell, price * quantity) >= 0
    ensures Swap(w, buy, sell, price, quantity).Success?
    ensures Within(Swap(w, buy, sell, price, quantity).value, w,
                   price * quantity + SideFlow(w, buy, price * quantity) + SideFlow(w, sell, price * quantity))
  {
    hide AccountOk, WorldOk, ChangePosition, PostCash, ValidateFill, PositionOk, MovesSums, SideFlow, Sum, Within,
         Roomy, Balance;
    var reference, turnover := w.nextId + 1, price * quantity;
    PaymentFits(w, buy, sell, price, quantity, e);
    TurnoverIsNotNegative(price, quantity);
    HouseFacts(w, sell.account, sell.symbol);
    var w1 := ChangePosition(w.(nextId := reference), buy, turnover, price, quantity, reference).value;
    BuyerChanged(w, buy, sell, price, quantity);
    MoneyMoved(w1, buy.account, sell.account, turnover, reference, sell.symbol);
    var w2 := PostCash(w1, buy.account, sell.account, turnover, reference).value;
    SameFlow(w, w2, sell, turnover);
    if sell.side.Sell? { SellableEnough(w, w2, sell, price, quantity); }
    ChangeFits(w, w2, sell, turnover, price, quantity, reference, turnover + SideFlow(w, buy, turnover), e);
  }

  lemma SideFlowIsNatural(w: World, o: Order, turnover: int)
    requires WorldOk(w) && o.account in w.accounts && turnover >= 0
    ensures SideFlow(w, o, turnover) >= 0
  {
    HouseFacts(w, o.account, o.symbol);
    LotDebtIsNatural(PositionOf(w.accounts[o.account], o.symbol).lots);
    CollateralIsNatural(turnover);
  }

  /** Charging the fee succeeds exactly when it does not overdraw the account. */
  lemma FinishFits(w: World, u: World, o: Order, price: int, quantity: int, reference: int, d: int, e: int)
    requires Within(u, w, d) && Roomy(w, e) && o.account in w.accounts && o.account.Owned?
    requires House(FeeDesk, o.account.market) in w.accounts
    requires price * quantity >= 0 && o.filled >= 0 && quantity >= 1 && 0 <= d
    requires d + Fees(o.account.market, o.side, price * quantity) <= e
    ensures o.account in u.accounts && House(FeeDesk, o.account.market) in u.accounts
    ensures
      var r, fee := FinishSide(u, o, price, quantity, reference), Fees(o.account.market, o.side, price * quantity);
      && (r.Success? <==> u.accounts[o.account].cash >= fee) && fee >= 0
      && (r.Success? ==>
          && Within(r.value.world, w, d + fee)
          && r.value.world.accounts[o.account].cash == u.accounts[o.account].cash - fee)
      && (r.Success? ==>
          forall x :: x in w.accounts && x.Owned? && x != o.account ==>
            x in r.value.world.accounts && r.value.world.accounts[x] == u.accounts[x])
  {
    hide Fees, FilledOrder, PostCash, Within;
    var fee, desk := Fees(o.account.market, o.side, price * quantity), House(FeeDesk, o.account.market);
    FeesAreNotNegative(o.account.market, o.side, price * quantity);
    PostFits(w, u, o.account, desk, fee, reference, d, e);
    PostingShape(u, o.account, desk, fee, reference);
    SequenceHoldsNoCash(PostCash(u, o.account, desk, fee, reference).value, w, d + fee);
  }

  lemma SequenceHoldsNoCash(v: World, w: World, d: int)
    requires Within(v, w, d)
    ensures forall n :: Within(v.(sequence := n), w, d)
  {
  }

  lemma QuotesHoldNoCash(w: World, d: int)
    ensures forall v: World, q :: Within(v, w, d) ==> Within(v.(quotes := q), w, d)
  {
  }

  /**
   The whole trade. A buyer, a coverer and a short seller have been checked against their free cash,
   so only a plain sale can fail after validation, and it fails exactly when proceeds and cash do
   not cover the loan on the shares sold and the fee.
   */
  lemma SettlesExactlyWhen(w: World, buy: Order, sell: Order, price: int, quantity: int)
    requires Validated(w, buy, sell, price, quantity) && Roomy(w, TradeFlow(w, buy, sell, price * quantity))
    requires ReservedCash(w, w.orders, w.accounts[buy.account], buy.id) >= 0
    requires ReservedCash(w, w.orders, w.accounts[sell.account], sell.id) >= 0
    ensures PositionOk(PositionOf(w.accounts[sell.account], sell.symbol))
    ensures SettleTrade(w, buy, sell, price, quantity).Success? ==>
      Within(SettleTrade(w, buy, sell, price, quantity).value.world, w, TradeFlow(w, buy, sell, price * quantity))
    ensures SettleTrade(w, buy, sell, price, quantity).Success? <==>
      || sell.side.Short?
      || w.accounts[sell.account].cash + price * quantity
           >= LoanOn(w, sell, quantity) + Fees(sell.account.market, Sell, price * quantity)
  {
    hide AccountOk, WorldOk, ValidateFill, Swap, FinishSide, Fees, ReservedCash, CashChange, SideFlow, Within, Roomy,
         PositionOk, PoolChange, LoanOn;
    var turnover, e := price * quantity, TradeFlow(w, buy, sell, price * quantity);
    TurnoverIsNotNegative(price, quantity);
    HouseFacts(w, buy.account, buy.symbol);
    HouseFacts(w, sell.account, sell.symbol);
    SideFlowIsNatural(w, buy, turnover);
    SideFlowIsNatural(w, sell, turnover);
    FeesAreNotNegative(buy.account.market, buy.side, turnover);
    FeesAreNotNegative(sell.account.market, sell.side, turnover);
    SwapFits(w, buy, sell, price, quantity, e);
    SwapKeepsWorld(w, buy, sell, price, quantity);
    var v := Swap(w, buy, sell, price, quantity).value;
    SwappedIsSound(w, buy, sell, price, quantity, v);
    SwappedCash(w, buy, sell, price, quantity, v);
    ValidatedIsPaid(w, buy, price, quantity);
    ValidatedIsPaid(w, sell, price, quantity);
    LoanIsChange(w, sell, turnover, quantity);
    var d := turnover + SideFlow(w, buy, turnover) + SideFlow(w, sell, turnover);
    FinishFits(w, v, buy, price, quantity, w.nextId + 1, d, e);
    var b := FinishSide(v, buy, price, quantity, w.nextId + 1).value;
    FinishFits(w, b.world, sell, price, quantity, w.nextId + 1, d + Fees(buy.account.market, buy.side, turnover), e);
    QuotesHoldNoCash(w, e);
  }
}
