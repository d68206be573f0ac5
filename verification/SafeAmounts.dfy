/**
 Amounts stay within the safe range. Cash is only ever checked where it is posted, and a covered
 short frees collateral without a check; but every command ends with a posting on each account it
 has changed. Debts and collateral follow from the sums.
 */
module SafeAmounts {
  import opened Numbers
  import opened Money
  import opened Accounts
  import opened Lots
  import opened Settlement
  import opened SettlementSteps
  import opened Trades
  import opened Commands
  import opened Compaction
  import opened Exposure
  import opened FundDesk
  import Funds
  import Sorting

  /** All cash, except perhaps that of the `loose` accounts, is within the safe range. */
  ghost predicate Safe(w: World, loose: set<AccountId>) {
    forall id :: id in w.accounts && id !in loose ==> -MAX_AMOUNT <= w.accounts[id].cash <= MAX_AMOUNT
  }

  /** Fund units are where they were. */
  ghost predicate SameFunds(v: World, w: World) {
    forall id :: id in w.accounts ==> id in v.accounts && v.accounts[id].funds == w.accounts[id].funds
  }

  lemma SameFundsTwice(u: World, v: World, w: World)
    requires SameFunds(v, u) && SameFunds(w, v)
    ensures SameFunds(w, u)
  {
  }

  lemma NumbersAreNoCash(w: World, n: int)
    ensures Safe(w, {}) ==> Safe(w.(nextId := n), {})
    ensures forall v: World :: SameFunds(v, w.(nextId := n)) ==> SameFunds(v, w)
  {
  }

  /** A posting checks both accounts. */
  lemma PostingIsSafe(w: World, from: AccountId, to: AccountId, amount: int, reference: int, loose: set<AccountId>)
    requires from in w.accounts && to in w.accounts && from != to && Safe(w, loose)
    requires PostCash(w, from, to, amount, reference).Success?
    ensures Safe(PostCash(w, from, to, amount, reference).value, loose - {from, to})
    ensures SameFunds(PostCash(w, from, to, amount, reference).value, w)
  {
  }

  lemma LendingIsSafe(w: World, from: AccountId, to: AccountId, amount: int, reference: int, loose: set<AccountId>)
    requires from in w.accounts && to in w.accounts && from != to && Safe(w, loose)
    requires Lend(w, from, to, amount, reference).Success?
    ensures Safe(Lend(w, from, to, amount, reference).value, loose)
    ensures SameFunds(Lend(w, from, to, amount, reference).value, w)
  {
    hide PostCash;
    if amount > 0 { PostingIsSafe(w, from, to, amount, reference, loose); }
  }

  lemma ReplacingIsSafe(w: World, a: Account, o: Order, reference: int, loose: set<AccountId>)
    requires Safe(w, loose) && a.id in w.accounts && a.funds == w.accounts[a.id].funds
    ensures Safe(Marked(WithAccount(w, a), o, reference), loose + {a.id})
    ensures SameFunds(Marked(WithAccount(w, a), o, reference), w)
  {
  }

  /** A position change may leave its own account loose, and no other. */
  lemma ChangeIsSafe(w: World, o: Order, turnover: int, price: int, quantity: int, reference: int,
                     loose: set<AccountId>)
    requires WorldOk(w) && o.account in w.accounts && o.account.Owned? && House(Bank, o.account.market) in w.accounts
    requires turnover >= 0
    requires PositionOk(PositionOf(w.accounts[o.account], o.symbol)) && w.accounts[o.account].leverage >= 1
    requires Safe(w, loose)
    requires quantity >= 1 && ChangePosition(w, o, turnover, price, quantity, reference).Success?
    ensures Safe(ChangePosition(w, o, turnover, price, quantity, reference).value, loose + {o.account})
    ensures SameFunds(ChangePosition(w, o, turnover, price, quantity, reference).value, w)
  {
    hide Safe, SameFunds, PostCash, WorldOk, AccountOk, PositionOk, RemoveLots, Share, Marked, WithPosition, Ceil;
    AccountFacts(w, o.account, o.symbol);
    var a, bank := w.accounts[o.account], House(Bank, o.account.market);
    var held, day := PositionOf(a, o.symbol), DayOf(w, a.id.market);
    match o.side
    case Buy =>
      var loan := Borrowed(turnover, a.leverage);
      BorrowedIsPart(turnover, a.leverage);
      var v := Lend(w, bank, o.account, loan, reference).value;
      LendMovesCash(w, bank, o.account, loan, reference);
      LendingIsSafe(w, bank, o.account, loan, reference, loose);
      var b := Bought(v.accounts[o.account], o.symbol, held, Lot(quantity, price, day, loan));
      OnlyPositionsDiffer(v.accounts[o.account], o.symbol);
      ReplacingIsSafe(v, b, o, reference, loose);
      SameFundsTwice(w, v, Marked(WithAccount(v, b), o, reference));
    case Sell =>
      var r := RemoveLots(held.lots, quantity, a.id.market, a.actor, day);
      SoldDebtIsNatural(held, quantity, a.id.market, a.actor, day);
      var v := Lend(w, o.account, bank, r.debt, reference).value;
      LendMovesCash(w, o.account, bank, r.debt, reference);
      LendingIsSafe(w, o.account, bank, r.debt, reference, loose);
      OnlyPositionsDiffer(v.accounts[o.account], o.symbol);
      var b := SoldOff(v.accounts[o.account], o.symbol, held, r);
      ReplacingIsSafe(v, b, o, reference, loose);
      SameFundsTwice(w, v, Marked(WithAccount(v, b), o, reference));
    case Short =>
      ShortKeepsId(a, o.symbol, held, quantity, turnover);
      ReplacingIsSafe(w, WentShort(a, o.symbol, held, quantity, turnover), o, reference, loose);
    case Cover =>
      CoverKeepsId(a, o.symbol, held, quantity);
      ReplacingIsSafe(w, Covered(a, o.symbol, held, quantity), o, reference, loose);
  }

  lemma SoldDebtIsNatural(held: Position, quantity: int, m: Market, actor: Actor, day: int)
    requires PositionOk(held) && quantity >= 0
    ensures RemoveLots(held.lots, quantity, m, actor, day).debt >= 0
  {
    RemovalIsExact(held.lots, quantity, m, actor, day);
  }

  lemma ShortKeepsId(a: Account, symbol: string, held: Position, quantity: int, turnover: int)
    ensures WentShort(a, symbol, held, quantity, turnover).id == a.id
    ensures WentShort(a, symbol, held, quantity, turnover).funds == a.funds
  {
  }

  lemma CoverKeepsId(a: Account, symbol: string, held: Position, quantity: int)
    requires held.shortQuantity > 0
    ensures Covered(a, symbol, held, quantity).id == a.id && Covered(a, symbol, held, quantity).funds == a.funds
  {
  }

  /** One side of the finish: the fee settles what the position change left loose. */
  lemma FinishIsSafe(w: World, o: Order, price: int, quantity: int, reference: int, loose: set<AccountId>)
    requires o.account in w.accounts && o.account.Owned? && House(FeeDesk, o.account.market) in w.accounts
    requires o.filled + quantity > 0
    requires Safe(w, loose) && FinishSide(w, o, price, quantity, reference).Success?
    ensures Safe(FinishSide(w, o, price, quantity, reference).value.world, loose - {o.account})
    ensures SameFunds(FinishSide(w, o, price, quantity, reference).value.world, w)
  {
    hide PostCash, Fees, FilledOrder, ShowsNext;
    PostingIsSafe(w, o.account, House(FeeDesk, o.account.market), Fees(o.account.market, o.side, price * quantity),
                  reference, loose);
  }

  lemma SwapIsSafe(w: World, buy: Order, sell: Order, price: int, quantity: int)
    requires Settleable(w, buy, sell, price, quantity) && buy.account != sell.account && Safe(w, {})
    requires ValidateFill(w, buy, price, quantity).None? && ValidateFill(w, sell, price, quantity).None?
    requires Swap(w, buy, sell, price, quantity).Success?
    ensures Safe(Swap(w, buy, sell, price, quantity).value, {sell.account})
    ensures SameFunds(Swap(w, buy, sell, price, quantity).value, w)
  {
    hide AccountOk, WorldOk, ValidateFill, ChangePosition, PostCash, CashChange, PositionOk, MovesSums, Sum, Balance,
         Safe, SameFunds;
    NumbersAreNoCash(w, w.nextId + 1);
    var reference, turnover := w.nextId + 1, price * quantity;
    var w0 := w.(nextId := reference);
    HouseFacts(w, buy.account, buy.symbol);
    TurnoverIsNotNegative(price, quantity);
    NextIdIsNoPart(w, reference);
    BuyerChanged(w, buy, sell, price, quantity);
    ChangeIsSafe(w0, buy, turnover, price, quantity, reference, {});
    var w1 := ChangePosition(w0, buy, turnover, price, quantity, reference).value;
    assert {} + {buy.account} == {buy.account};
    MoneyMoved(w1, buy.account, sell.account, turnover, reference, sell.symbol);
    PostingIsSafe(w1, buy.account, sell.account, turnover, reference, {buy.account});
    assert {buy.account} - {buy.account, sell.account} == {};
    var w2 := PostCash(w1, buy.account, sell.account, turnover, reference).value;
    ChangeIsSafe(w2, sell, turnover, price, quantity, reference, {});
    assert {} + {sell.account} == {sell.account};
    SameFundsTwice(w0, w1, w2);
    SameFundsTwice(w0, w2, ChangePosition(w2, sell, turnover, price, quantity, reference).value);
  }

  lemma QuotesAreNoCash()
    ensures forall w: World, q :: Safe(w, {}) ==> Safe(w.(quotes := q), {})
    ensures forall v: World, w: World, q :: SameFunds(v, w) ==> SameFunds(v.(quotes := q), w)
  {
  }

  /** A trade ends with both parties' fees. */
  lemma TradeIsSafe(w: World, buy: Order, sell: Order, price: int, quantity: int)
    requires Settleable(w, buy, sell, price, quantity) && SettleTrade(w, buy, sell, price, quantity).Success?
    requires Safe(w, {})
    ensures Safe(SettleTrade(w, buy, sell, price, quantity).value.world, {})
    ensures SameFunds(SettleTrade(w, buy, sell, price, quantity).value.world, w)
  {
    hide AccountOk, WorldOk, ValidateFill, Swap, FinishSide, FilledOrder, Fees, PoolChange, CashChange, SameSums,
         PositionOk, Swapped, Safe, SameFunds, ShowsNext;
    QuotesAreNoCash();
    SwapKeepsWorld(w, buy, sell, price, quantity);
    var v := Swap(w, buy, sell, price, quantity).value;
    SwapIsSafe(w, buy, sell, price, quantity);
    SwappedIsSound(w, buy, sell, price, quantity, v);
    HouseFacts(v, buy.account, buy.symbol);
    FinishKeepsWorld(v, buy, price, quantity, w.nextId + 1);
    FinishIsSafe(v, buy, price, quantity, w.nextId + 1, {sell.account});
    assert {sell.account} - {buy.account} == {sell.account};
    var b := FinishSide(v, buy, price, quantity, w.nextId + 1).value;
    HouseFacts(b.world, sell.account, sell.symbol);
    FinishIsSafe(b.world, sell, price, quantity, w.nextId + 1, {sell.account});
    assert {sell.account} - {sell.account} == {};
    var f := FinishSide(b.world, sell, price, quantity, w.nextId + 1).value;
    SameFundsTwice(w, v, b.world);
    SameFundsTwice(w, b.world, f.world);
  }

  lemma CashIsAllThatCounts(w: World, a: Account)
    requires Safe(w, {}) && a.id in w.accounts && a.cash == w.accounts[a.id].cash
    ensures Safe(WithAccount(w, a), {})
  {
  }

  lemma RepayIsSafe(w: World, id: AccountId, amount: int)
    requires WorldOk(w) && Safe(w, {}) && id in w.accounts && id.Owned? && House(Bank, id.market) in w.accounts
    requires Repay(w, id, amount).Success?
    ensures Safe(Repay(w, id, amount).value, {})
  {
    hide PostCash, WorldOk, Available, PayPositions, SameFunds;
    var w0, bank := w.(nextId := w.nextId + 1), House(Bank, id.market);
    NextIdIsNoPart(w, w.nextId + 1);
    PostingIsSafe(w0, id, bank, amount, w.nextId + 1, {});
    PostingKeepsWorld(w0, id, bank, amount, w.nextId + 1);
    var v := PostCash(w0, id, bank, amount, w.nextId + 1).value;
    IdsAreListed(v, id);
    CashIsAllThatCounts(v, PaidAccount(v.accounts[id], amount));
  }

  lemma NothingLoose()
    ensures forall a: AccountId, b: AccountId :: {} - {a, b} == {}
  {
  }

  lemma TransferIsSafe(w: World, owner: string, from: Market, to: Market, amount: int, inSeason: bool)
    requires WorldOk(w) && Safe(w, {}) && Owned(owner, from) in w.accounts && Owned(owner, to) in w.accounts
    requires Transfer(w, owner, from, to, amount, inSeason).Success?
    ensures Safe(Transfer(w, owner, from, to, amount, inSeason).value, {})
  {
    hide PostCash, WorldOk, Available, Exchange, Safe, SameFunds;
    NothingLoose();
    var source, c, reference := Owned(owner, from), Exchange(amount, from, to), w.nextId + 1;
    DesksExist(w, from);
    DesksExist(w, to);
    NextIdIsNoPart(w, reference);
    var w0 := w.(nextId := reference);
    assert Safe(w0, {}) by { NumbersAreNoCash(w, reference); }
    PostingIsSafe(w0, source, House(Fx, from), amount - c.fee, reference, {});
    PostingKeepsWorld(w0, source, House(Fx, from), amount - c.fee, reference);
    var w1 := PostCash(w0, source, House(Fx, from), amount - c.fee, reference).value;
    PostingIsSafe(w1, source, House(FeeDesk, from), c.fee, reference, {});
    PostingKeepsWorld(w1, source, House(FeeDesk, from), c.fee, reference);
    var w2 := PostCash(w1, source, House(FeeDesk, from), c.fee, reference).value;
    PostingIsSafe(w2, House(Fx, to), Owned(owner, to), c.received, reference, {});
  }

  lemma LeverageIsSafe(w: World, id: AccountId, leverage: int)
    requires WorldOk(w) && Safe(w, {}) && id in w.accounts && SetLeverage(w, id, leverage).Success?
    ensures Safe(SetLeverage(w, id, leverage).value, {})
  {
  }

  lemma ResetIsSafe(w: World, id: AccountId, inSeason: bool)
    requires Safe(w, {}) && id in w.accounts && id.Owned? && House(Treasury, id.market) in w.accounts
    requires Reset(w, id, inSeason).Success?
    ensures Safe(Reset(w, id, inSeason).value, {})
  {
    hide PostCash, HoldsShares, HasLiveOrders, Balance, SameFunds;
    var treasury, reference, difference := House(Treasury, id.market), w.nextId + 1, INITIAL_CASH - w.accounts[id].cash;
    var w0 := w.(nextId := reference);
    if difference > 0 {
      PostingIsSafe(w0, treasury, id, difference, reference, {});
      PostingShape(w0, treasury, id, difference, reference);
    } else if difference < 0 {
      PostingIsSafe(w0, id, treasury, -difference, reference, {});
      PostingShape(w0, id, treasury, -difference, reference);
    }
  }

  lemma BuyingUnitsIsSafe(w: World, id: AccountId, etf: bool, amount: int, nav: int)
    requires WorldOk(w) && Grouped(w.ledger) && Safe(w, {}) && id in w.accounts && id.Owned? && nav >= 1
    requires BuyUnits(w, id, etf, amount, nav).Success?
    ensures Safe(BuyUnits(w, id, etf, amount, nav).value, {})
  {
    hide PostCash, WorldOk, Grouped, Available, SameFunds, Funds.UnitsFor, Funds.CostOfUnits, Funds.FundFee;
    var reserve, desk, reference := House(FundReserve, id.market), House(FeeDesk, id.market), w.nextId + 1;
    var fee, units := Funds.FundFee(amount, etf), Funds.UnitsFor(amount, nav, etf);
    var w0 := w.(nextId := reference);
    ReserveExists(w, id.market);
    NextIdIsNoPart(w, reference);
    PostingIsSafe(w0, id, reserve, Funds.CostOfUnits(units, nav), reference, {});
    PostingKeepsWorld(w0, id, reserve, Funds.CostOfUnits(units, nav), reference);
    var w1 := PostCash(w0, id, reserve, Funds.CostOfUnits(units, nav), reference).value;
    PostingIsSafe(w1, id, desk, fee, reference, {});
    PostingKeepsWorld(w1, id, desk, fee, reference);
    IdsAreListed(PostCash(w1, id, desk, fee, reference).value, id);
  }

  lemma SellingUnitsIsSafe(w: World, id: AccountId, etf: bool, units: int, nav: int)
    requires WorldOk(w) && Grouped(w.ledger) && Safe(w, {}) && id in w.accounts && id.Owned? && nav >= 1
    requires SellUnits(w, id, etf, units, nav).Success?
    ensures Safe(SellUnits(w, id, etf, units, nav).value, {})
  {
    hide PostCash, WorldOk, Grouped, Lend, Funds.FundFee, SameFunds, SameSums, Safe;
    NothingLoose();
    NumbersAreNoCash(w, w.nextId + 1);
    var reserve, desk := House(FundReserve, id.market), House(FeeDesk, id.market);
    var treasury, reference := House(Treasury, id.market), w.nextId + 1;
    var payout := units * nav / Funds.UNIT;
    ReserveExists(w, id.market);
    var fee, w0, missing := Funds.FundFee(payout, etf), w.(nextId := reference), payout - w.accounts[reserve].cash;
    NextIdIsNoPart(w, reference);
    LendingIsSafe(w0, treasury, reserve, missing, reference, {});
    ToppedUp(w0, treasury, reserve, missing, reference);
    var w1 := Lend(w0, treasury, reserve, missing, reference).value;
    PostingIsSafe(w1, reserve, id, payout - fee, reference, {});
    PostingKeepsWorld(w1, reserve, id, payout - fee, reference);
    var w2 := PostCash(w1, reserve, id, payout - fee, reference).value;
    PostingIsSafe(w2, reserve, desk, fee, reference, {});
    PostingKeepsWorld(w2, reserve, desk, fee, reference);
    var w3 := PostCash(w2, reserve, desk, fee, reference).value;
    IdsAreListed(w3, id);
    CashIsAllThatCounts(w3, WithUnits(w3.accounts[id], etf, UnitsHeld(w.accounts[id].funds, etf) - units));
  }

  // ---- Debts and collateral ----

  /** How far the members of `low` can pull a sum down. */
  function Slack<K>(low: set<K>, c: int): int { |low| * c }

  /** A sum whose readings are not negative, but for those of `low`, which are no less than `-c`. */
  lemma {:induction false} TotalIsNoLess<K, V>(keys: seq<K>, m: map<K, V>, f: V -> int, low: set<K>, c: int)
    requires c >= 0 && Sorting.Distinct(keys)
    requires forall k :: k in keys && k in m ==> f(m[k]) >= if k in low then -c else 0
    ensures Total(keys, m, f) >= -Slack(low, c)
    decreases |keys|
  {
    if keys == [] {
      TimesKeepsOrder(0, |low|, c);
      assert Slack(low, c) >= 0;
    } else {
      assert keys == [keys[0]] + keys[1..];
      TotalIsNoLess(keys[1..], m, f, low - {keys[0]}, c);
      OneLess(low, keys[0], c);
    }
  }

  lemma OneLess<K>(low: set<K>, k: K, c: int)
    ensures |low| == |low - {k}| + (if k in low then 1 else 0)
    ensures Slack(low, c) == Slack(low - {k}, c) + if k in low then c else 0
  {
    if k in low {
      assert low == low - {k} + {k};
      OneMore(|low - {k}|, c);
    } else {
      assert low - {k} == low;
    }
  }

  /** So no single reading is much larger than the sum. */
  lemma {:induction false} TotalBounds<K, V>(keys: seq<K>, m: map<K, V>, f: V -> int, a: K, low: set<K>, c: int)
    requires c >= 0 && Sorting.Distinct(keys) && a in keys && a in m
    requires forall k :: k in keys && k in m ==> f(m[k]) >= if k in low then -c else 0
    ensures Total(keys, m, f) >= f(m[a]) - Slack(low - {a}, c)
    decreases |keys|
  {
    hide Slack;
    assert keys == [keys[0]] + keys[1..];
    if keys[0] == a {
      TotalIsNoLess(keys[1..], m, f, low - {a}, c);
    } else {
      TotalBounds(keys[1..], m, f, a, low - {keys[0]}, c);
      assert low - {keys[0]} - {a} == low - {a} - {keys[0]};
      OneLess(low - {a}, keys[0], c);
    }
  }

  /** A debt is what a bank has lent, and a bank has lent no more than its cash can show. */
  lemma DebtIsSafe(w: World, id: AccountId)
    requires WorldOk(w) && Safe(w, {}) && id in w.accounts && Sum(w, BankBooks(id.market)) == 0
    ensures 0 <= w.accounts[id].debt <= MAX_AMOUNT
  {
    var m, x := id.market, BankBooks(id.market);
    IdsAreListed(w, id);
    DebtsAreNatural(w);
    forall k | k in w.ids && k in w.accounts
      ensures Of(x)(w.accounts[k]) >= if k in {House(Bank, m)} then -MAX_AMOUNT else 0
    {
      IdsAreListed(w, k);
    }
    TotalBounds(w.ids, w.accounts, Of(x), id, {House(Bank, m)}, MAX_AMOUNT);
    assert id == House(Bank, m) ==> {House(Bank, m)} - {id} == {};
    assert id != House(Bank, m) ==> {House(Bank, m)} - {id} == {House(Bank, m)};
  }

  lemma DebtsAreNatural(w: World)
    requires WorldOk(w)
    ensures forall id :: id in w.accounts ==> w.accounts[id].debt >= 0 && w.accounts[id].collateral >= 0
  {
    forall id | id in w.accounts
      ensures w.accounts[id].debt >= 0 && w.accounts[id].collateral >= 0
    {
      var a := w.accounts[id];
      assert AccountOk(a);
      LotDebtsAreNotNegative(a.symbols, a.positions);
      TotalOfNothing(a.symbols, a.positions, CollateralOf());
    }
  }

  /** The house accounts of a market. */
  function Houses(m: Market): set<AccountId> {
    {House(Treasury, m), House(FeeDesk, m), House(Bank, m), House(Fx, m), House(FundReserve, m), House(Issuer, m)}
  }

  /** Collateral is cash that the rest of the market lacks, and only the six houses can lack any. */
  lemma CollateralIsSafe(w: World, id: AccountId)
    requires WorldOk(w) && Solvent(w) && Safe(w, {}) && id in w.accounts && Sum(w, Value(id.market)) == 0
    ensures 0 <= w.accounts[id].collateral <= 6 * MAX_AMOUNT
  {
    hide WorldOk, AccountOk, Houses, Slack;
    var m, x := id.market, Value(id.market);
    IdsAreListed(w, id);
    DebtsAreNatural(w);
    forall k | k in w.ids && k in w.accounts
      ensures Of(x)(w.accounts[k]) >= if k in Houses(m) then -MAX_AMOUNT else 0
    {
      IdsAreListed(w, k);
      HousesAreAll(k);
    }
    TotalBounds(w.ids, w.accounts, Of(x), id, Houses(m), MAX_AMOUNT);
    FewHouses(m, id);
    HousesAreAll(id);
    assert Of(x)(w.accounts[id]) == w.accounts[id].cash + w.accounts[id].collateral;
  }

  lemma HousesAreAll(id: AccountId)
    ensures id.House? ==> id in Houses(id.market)
  {
    if id.House? {
      match id.purpose
      case Treasury => case FeeDesk => case Bank => case Fx => case FundReserve => case Issuer =>
    }
  }

  lemma FewHouses(m: Market, id: AccountId)
    ensures Slack(Houses(m) - {id}, MAX_AMOUNT) <= if id in Houses(m) then 5 * MAX_AMOUNT else 6 * MAX_AMOUNT
    ensures id in Houses(m) ==> id.House?
  {
    OneLess(Houses(m), id, MAX_AMOUNT);
    assert |Houses(m)| <= 6;
  }

  /** Cash, debt and collateral of every account are safe integers. */
  lemma AmountsAreSafe(w: World)
    requires WorldOk(w) && Solvent(w) && Safe(w, {}) && forall m :: Sum(w, Value(m)) == 0 && Sum(w, BankBooks(m)) == 0
    ensures forall id :: id in w.accounts ==>
      var a := w.accounts[id];
      -MAX_SAFE <= a.cash <= MAX_SAFE && 0 <= a.debt <= MAX_SAFE && 0 <= a.collateral <= MAX_SAFE
  {
    hide WorldOk;
    forall id | id in w.accounts
      ensures 0 <= w.accounts[id].debt <= MAX_AMOUNT && 0 <= w.accounts[id].collateral <= 6 * MAX_AMOUNT
    {
      DebtIsSafe(w, id);
      CollateralIsSafe(w, id);
    }
  }
}
