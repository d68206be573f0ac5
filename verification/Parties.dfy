/** The two parties' accounts after a trade, in full: position, loan, collateral and cash. */
module Parties {
  import opened Numbers
  import opened Money
  import opened Accounts
  import opened Lots
  import opened Settlement
  import opened SettlementSteps
  import opened Trades

  /** An account after its side of a trade, before it pays or is paid for the shares. */
  function ChangedAccount(w: World, o: Order, turnover: int, price: int, quantity: int): Account
    requires o.account in w.accounts && PositionOk(PositionOf(w.accounts[o.account], o.symbol))
    requires w.accounts[o.account].leverage >= 1
  {
    var a := w.accounts[o.account];
    var held, day := PositionOf(a, o.symbol), DayOf(w, a.id.market);
    match o.side
    case Buy =>
      var loan := Borrowed(turnover, a.leverage);
      Bought(Richer(a, loan), o.symbol, held, Lot(quantity, price, day, loan))
    case Sell =>
      var r := RemoveLots(held.lots, quantity, a.id.market, a.actor, day);
      SoldOff(Richer(a, -r.debt), o.symbol, held, r)
    case Short => WentShort(a, o.symbol, held, quantity, turnover)
    case Cover => if held.shortQuantity <= 0 then a else Covered(a, o.symbol, held, quantity)
  }

  lemma BuyGives(w: World, o: Order, turnover: int, price: int, quantity: int, reference: int)
    requires WorldOk(w) && o.account in w.accounts && o.account.Owned? && turnover >= 0 && quantity >= 1 && o.side.Buy?
    requires PositionOk(PositionOf(w.accounts[o.account], o.symbol)) && w.accounts[o.account].leverage >= 1
    requires House(Bank, o.account.market) in w.accounts
    requires ChangePosition(w, o, turnover, price, quantity, reference).Success?
    ensures var v := ChangePosition(w, o, turnover, price, quantity, reference).value;
      o.account in v.accounts && v.accounts[o.account] == ChangedAccount(w, o, turnover, price, quantity)
  {
    hide AccountOk, WorldOk, Ceil, PostCash, WithPosition;
    var a, bank := w.accounts[o.account], House(Bank, o.account.market);
    AccountFacts(w, o.account, o.symbol);
    BorrowedIsPart(turnover, a.leverage);
    LendMovesCash(w, bank, o.account, Borrowed(turnover, a.leverage), reference);
    OnlyPositionsDiffer(Richer(a, Borrowed(turnover, a.leverage)), o.symbol);
  }

  lemma SellGives(w: World, o: Order, turnover: int, price: int, quantity: int, reference: int)
    requires WorldOk(w) && o.account in w.accounts && o.account.Owned? && turnover >= 0 && quantity >= 1 && o.side.Sell?
    requires PositionOk(PositionOf(w.accounts[o.account], o.symbol)) && w.accounts[o.account].leverage >= 1
    requires House(Bank, o.account.market) in w.accounts
    requires ChangePosition(w, o, turnover, price, quantity, reference).Success?
    ensures var v := ChangePosition(w, o, turnover, price, quantity, reference).value;
      o.account in v.accounts && v.accounts[o.account] == ChangedAccount(w, o, turnover, price, quantity)
  {
    hide AccountOk, WorldOk, RemoveLots, PostCash, WithPosition;
    var a, bank := w.accounts[o.account], House(Bank, o.account.market);
    var held := PositionOf(a, o.symbol);
    AccountFacts(w, o.account, o.symbol);
    RemovalIsExact(held.lots, quantity, a.id.market, a.actor, DayOf(w, a.id.market));
    LendMovesCash(w, o.account, bank, LoanOn(w, o, quantity), reference);
    OnlyPositionsDiffer(Richer(a, -LoanOn(w, o, quantity)), o.symbol);
  }

  lemma ChangeGives(w: World, o: Order, turnover: int, price: int, quantity: int, reference: int)
    requires WorldOk(w) && o.account in w.accounts && o.account.Owned? && turnover >= 0 && quantity >= 1
    requires PositionOk(PositionOf(w.accounts[o.account], o.symbol)) && w.accounts[o.account].leverage >= 1
    requires House(Bank, o.account.market) in w.accounts
    requires ChangePosition(w, o, turnover, price, quantity, reference).Success?
    ensures var v := ChangePosition(w, o, turnover, price, quantity, reference).value;
      o.account in v.accounts && v.accounts[o.account] == ChangedAccount(w, o, turnover, price, quantity)
  {
    hide AccountOk, WorldOk, RemoveLots, Ceil, Share, PostCash;
    AccountFacts(w, o.account, o.symbol);
    if o.side.Buy? {
      hide ChangePosition, ChangedAccount;
      BuyGives(w, o, turnover, price, quantity, reference);
    } else if o.side.Sell? {
      hide ChangePosition, ChangedAccount;
      SellGives(w, o, turnover, price, quantity, reference);
    }
  }

  /** Cash is carried along by a position change. */
  lemma ChangeCarriesCash(w: World, v: World, o: Order, turnover: int, price: int, quantity: int, amount: int)
    requires o.account in w.accounts && PositionOk(PositionOf(w.accounts[o.account], o.symbol))
    requires w.accounts[o.account].leverage >= 1
    requires o.account in v.accounts && v.days == w.days
    requires v.accounts[o.account] == Richer(w.accounts[o.account], amount)
    ensures PositionOk(PositionOf(v.accounts[o.account], o.symbol)) && v.accounts[o.account].leverage >= 1
    ensures ChangedAccount(v, o, turnover, price, quantity)
      == Richer(ChangedAccount(w, o, turnover, price, quantity), amount)
  {
    hide RemoveLots, Ceil, PositionOk, Bought, SoldOff, WentShort, Covered;
    var a := w.accounts[o.account];
    var held := PositionOf(a, o.symbol);
    SidesCarryCash(a, o.symbol, held, amount);
    match o.side
    case Buy =>
      SidesCarryCash(Richer(a, Borrowed(turnover, a.leverage)), o.symbol, held, amount);
      RicherTwice(a, Borrowed(turnover, a.leverage), amount);
    case Sell =>
      SidesCarryCash(Richer(a, -LoanOn(w, o, quantity)), o.symbol, held, amount);
      RicherTwice(a, -LoanOn(w, o, quantity), amount);
    case Short =>
    case Cover =>
  }

  lemma RicherTwice(a: Account, m: int, n: int)
    ensures Richer(Richer(a, m), n) == Richer(Richer(a, n), m)
  {
  }

  lemma SidesCarryCash(a: Account, symbol: string, held: Position, n: int)
    ensures forall lot :: Bought(Richer(a, n), symbol, held, lot) == Richer(Bought(a, symbol, held, lot), n)
    ensures forall r :: SoldOff(Richer(a, n), symbol, held, r) == Richer(SoldOff(a, symbol, held, r), n)
    ensures forall q, t :: WentShort(Richer(a, n), symbol, held, q, t) == Richer(WentShort(a, symbol, held, q, t), n)
    ensures held.shortQuantity > 0 ==>
      forall q :: Covered(Richer(a, n), symbol, held, q) == Richer(Covered(a, symbol, held, q), n)
  {
    hide Share, Collateral;
  }

  lemma SwapGives(w: World, buy: Order, sell: Order, price: int, quantity: int)
    requires Settleable(w, buy, sell, price, quantity) && buy.account != sell.account
    requires ValidateFill(w, buy, price, quantity).None? && ValidateFill(w, sell, price, quantity).None?
    requires Swap(w, buy, sell, price, quantity).Success?
    ensures PositionOk(PositionOf(w.accounts[buy.account], buy.symbol)) && w.accounts[buy.account].leverage >= 1
    ensures PositionOk(PositionOf(w.accounts[sell.account], sell.symbol)) && w.accounts[sell.account].leverage >= 1
    ensures var v, turnover := Swap(w, buy, sell, price, quantity).value, price * quantity;
      && buy.account in v.accounts && sell.account in v.accounts
      && v.accounts[buy.account] == Richer(ChangedAccount(w, buy, turnover, price, quantity), -turnover)
      && v.accounts[sell.account] == Richer(ChangedAccount(w, sell, turnover, price, quantity), turnover)
  {
    hide AccountOk, WorldOk, ChangePosition, PostCash, ValidateFill, PositionOk, MovesSums, ChangedAccount, Sum,
         CashChange, Balance;
    var reference, turnover := w.nextId + 1, price * quantity;
    var w0 := w.(nextId := reference);
    HouseFacts(w, buy.account, buy.symbol);
    HouseFacts(w, sell.account, sell.symbol);
    TurnoverIsNotNegative(price, quantity);
    NextIdIsNoPart(w, reference);
    BuyerChanged(w, buy, sell, price, quantity);
    var w1 := ChangePosition(w0, buy, turnover, price, quantity, reference).value;
    RicherByNothing(w.accounts[buy.account]);
    ChangeCarriesCash(w, w0, buy, turnover, price, quantity, 0);
    RicherByNothing(ChangedAccount(w, buy, turnover, price, quantity));
    ChangeGives(w0, buy, turnover, price, quantity, reference);
    MoneyMoved(w1, buy.account, sell.account, turnover, reference, sell.symbol);
    var w2 := PostCash(w1, buy.account, sell.account, turnover, reference).value;
    ChangeCarriesCash(w, w2, sell, turnover, price, quantity, turnover);
    ChangeGives(w2, sell, turnover, price, quantity, reference);
    SellerFits(w, w2, sell, price, quantity);
    PositionChanges(w2, sell, turnover, price, quantity, reference);
  }

  /** Both parties, to the last field. */
  lemma SettledAccounts(w: World, buy: Order, sell: Order, price: int, quantity: int)
    requires Settleable(w, buy, sell, price, quantity) && SettleTrade(w, buy, sell, price, quantity).Success?
    ensures PositionOk(PositionOf(w.accounts[buy.account], buy.symbol)) && w.accounts[buy.account].leverage >= 1
    ensures PositionOk(PositionOf(w.accounts[sell.account], sell.symbol)) && w.accounts[sell.account].leverage >= 1
    ensures var t, turnover := SettleTrade(w, buy, sell, price, quantity).value.world, price * quantity;
      && buy.account in t.accounts && sell.account in t.accounts
      && t.accounts[buy.account] == Richer(ChangedAccount(w, buy, turnover, price, quantity),
                                           -turnover - Fees(buy.account.market, buy.side, turnover))
      && t.accounts[sell.account] == Richer(ChangedAccount(w, sell, turnover, price, quantity),
                                            turnover - Fees(sell.account.market, sell.side, turnover))
  {
    hide AccountOk, WorldOk, ValidateFill, Swap, FinishSide, Fees, ChangedAccount, PositionOk, FilledOrder, PoolChange,
         CashChange, ShowsNext, SameSums, Swapped;
    SettledIsValid(w, buy, sell, price, quantity);
    SwapGives(w, buy, sell, price, quantity);
    SwapKeepsWorld(w, buy, sell, price, quantity);
    var v := Swap(w, buy, sell, price, quantity).value;
    SwappedIsSound(w, buy, sell, price, quantity, v);
    HouseFacts(v, buy.account, buy.symbol);
    FinishKeepsWorld(v, buy, price, quantity, w.nextId + 1);
    var b := FinishSide(v, buy, price, quantity, w.nextId + 1).value;
    HouseFacts(b.world, sell.account, sell.symbol);
    FinishKeepsWorld(b.world, sell, price, quantity, w.nextId + 1);
  }
}
