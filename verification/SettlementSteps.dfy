/** What each step of a settlement does to the world: which accounts it touches, and how every sum moves. */
module SettlementSteps {
  import opened Wrappers
  import opened Numbers
  import opened Money
  import opened Accounts
  import opened Lots
  import opened Settlement

  /** Everything but accounts, ledger and the identifier counter is as it was. */
  ghost predicate Frame(v: World, w: World) {
    v == w.(accounts := v.accounts, ledger := v.ledger, nextId := v.nextId) && v.accounts.Keys == w.accounts.Keys
  }

  /** Only these accounts may differ. */
  ghost predicate OnlyTouches(v: World, w: World, a: AccountId, b: AccountId) {
    forall id :: id in w.accounts && id != a && id != b ==> id in v.accounts && v.accounts[id] == w.accounts[id]
  }

  /** How a position change moves the sums: shares appear or go in one symbol, money never does. */
  function Delta(x: Measure, symbol: string, side: Side, quantity: int): int {
    match x
    case NetShares(s) => if s != symbol then 0 else if side.Buying() then quantity else -quantity
    case Shorts(s) => if s != symbol then 0 else if side.Short? then quantity else if side.Cover? then -quantity else 0
    case _ => 0
  }

  ghost predicate MovesSums(v: World, w: World, symbol: string, side: Side, quantity: int) {
    && (forall x: Measure :: Sum(v, x) == Sum(w, x) + Delta(x, symbol, side, quantity))
    && (forall m :: Balance(v.ledger, m) == Balance(w.ledger, m))
  }

  lemma ReplaceKeepsWorld(w: World, a: Account)
    requires WorldOk(w) && a.id in w.accounts && AccountOk(a) && a.actor == w.accounts[a.id].actor
    ensures WorldOk(WithAccount(w, a)) && WithAccount(w, a).accounts.Keys == w.accounts.Keys
  {
    hide AccountOk;
  }

  lemma PostingKeepsWorld(w: World, from: AccountId, to: AccountId, amount: int, reference: int)
    requires WorldOk(w) && from in w.accounts && to in w.accounts && from != to
    requires PostCash(w, from, to, amount, reference).Success?
    ensures var v := PostCash(w, from, to, amount, reference).value;
      WorldOk(v) && Frame(v, w) && OnlyTouches(v, w, from, to)
  {
    hide PostCash, AccountOk, Balance, Richer;
    PostingShape(w, from, to, amount, reference);
    RicherIsSound(w.accounts[from], -amount);
    RicherIsSound(w.accounts[to], amount);
  }

  lemma RicherIsSound(a: Account, amount: int)
    requires AccountOk(a)
    ensures AccountOk(Richer(a, amount)) && Richer(a, amount).id == a.id && Richer(a, amount).actor == a.actor
  {
  }

  lemma MarkKeepsWorld(w: World, o: Order, reference: int)
    requires WorldOk(w)
    ensures var v := Marked(w, o, reference);
      WorldOk(v) && Frame(v, w) && v.accounts == w.accounts && SameSums(v, w)
  {
    var v := Marked(w, o, reference);
    assert v.ledger[..|v.ledger| - 1] == w.ledger;
    forall x: Measure
      ensures Sum(v, x) == Sum(w, x)
    {
    }
  }

  /** The reading of an account whose one position was replaced. */
  lemma ReadingWithPosition(a: Account, symbol: string, p: Position, x: Measure)
    ensures Reading(x, WithPosition(a, symbol, p)) == Reading(x, a)
      + match x
        case NetShares(s) =>
          var held := PositionOf(a, s);
          if s != symbol then 0
          else LongQuantity(p.lots) - p.shortQuantity - LongQuantity(held.lots) + held.shortQuantity
        case Shorts(s) => if s == symbol then p.shortQuantity - PositionOf(a, s).shortQuantity else 0
        case _ => 0
  {
  }

  /** The account `b` that replaces `a`: one position, debt and matching cash and collateral moved. */
  lemma Replaced(w: World, o: Order, p: Position, b: Account, reference: int)
    requires WorldOk(w) && o.account in w.accounts && o.account.Owned? && PositionOk(p)
    requires var a := w.accounts[o.account];
      && b == WithPosition(a, o.symbol, p).(cash := b.cash, debt := b.debt, collateral := b.collateral)
      && b.debt - LotDebt(p.lots) >= a.debt - LotDebt(PositionOf(a, o.symbol).lots)
      && b.collateral - p.collateral == a.collateral - PositionOf(a, o.symbol).collateral
    ensures var a, v := w.accounts[o.account], Marked(WithAccount(w, b), o, reference);
      && WorldOk(v) && Frame(v, w) && OnlyTouches(v, w, o.account, o.account) && v.accounts[o.account] == b
      && (forall m :: Balance(v.ledger, m) == Balance(w.ledger, m))
      && (forall x: Measure :: Sum(v, x) == Sum(w, x) + Reading(x, b) - Reading(x, a))
  {
    hide Marked, AccountOk;
    var a := w.accounts[o.account];
    SoundWithPosition(a, o.symbol, p, b);
    ReplaceKeepsWorld(w, b);
    MarkKeepsWorld(WithAccount(w, b), o, reference);
    forall x: Measure
      ensures Sum(Marked(WithAccount(w, b), o, reference), x) == Sum(w, x) + Reading(x, b) - Reading(x, a)
    {
      SumFollows(w, b, x);
    }
  }

  function Borrowed(turnover: int, leverage: int): int
    requires leverage >= 1
  {
    turnover - Ceil(turnover, leverage)
  }

  lemma BorrowedIsPart(turnover: int, leverage: int)
    requires leverage >= 1 && turnover >= 0
    ensures 0 <= Borrowed(turnover, leverage) <= turnover
  {
    var n := turnover + leverage - 1;
    TimesKeepsOrder(1, leverage, turnover);
    assert n == n / leverage * leverage + n % leverage;
    assert (turnover + 1) * leverage == turnover * leverage + leverage;
    if n / leverage >= turnover + 1 {
      TimesKeepsOrder(turnover + 1, n / leverage, leverage);
    }
  }

  /** What a side's position change brings to the account's cash. */
  function CashChange(w: World, o: Order, turnover: int, quantity: int): int
    requires o.account in w.accounts && PositionOk(PositionOf(w.accounts[o.account], o.symbol))
    requires w.accounts[o.account].leverage >= 1
  {
    var a := w.accounts[o.account];
    var held := PositionOf(a, o.symbol);
    match o.side
    case Buy => Borrowed(turnover, a.leverage)
    case Sell => -RemoveLots(held.lots, quantity, a.id.market, a.actor, DayOf(w, a.id.market)).debt
    case Short => -Collateral(turnover)
    case Cover => if held.shortQuantity <= 0 then 0 else Share(held.collateral, quantity, held.shortQuantity)
  }

  predicate Fits(w: World, o: Order, quantity: int)
    requires o.account in w.accounts
  {
    quantity >= 1 && (o.side.Cover? ==> quantity <= PositionOf(w.accounts[o.account], o.symbol).shortQuantity)
  }

  /** The promise of a position change. */
  ghost predicate Changed(w: World, o: Order, turnover: int, quantity: int, v: World)
    requires o.account in w.accounts && PositionOk(PositionOf(w.accounts[o.account], o.symbol))
    requires w.accounts[o.account].leverage >= 1
  {
    && WorldOk(v) && Frame(v, w) && OnlyTouches(v, w, o.account, House(Bank, o.account.market))
    && MovesSums(v, w, o.symbol, o.side, quantity)
    && v.accounts[o.account].cash == w.accounts[o.account].cash + CashChange(w, o, turnover, quantity)
    && v.accounts[o.account].leverage == w.accounts[o.account].leverage
    && v.accounts[o.account].actor == w.accounts[o.account].actor
  }

  lemma AccountFacts(w: World, id: AccountId, symbol: string)
    requires WorldOk(w) && id in w.accounts
    ensures w.accounts[id].id == id && AccountOk(w.accounts[id]) && w.accounts[id].leverage >= 1
    ensures PositionOk(PositionOf(w.accounts[id], symbol)) && House(Bank, id.market) in w.accounts
  {
    assert House(Bank, id.market) in w.accounts && w.accounts[House(Bank, id.market)].actor == System;
  }

  /** A loan from the bank, or none when nothing is borrowed. */
  function Lend(w: World, from: AccountId, to: AccountId, amount: int, reference: int): Result<World, RuleError>
    requires from in w.accounts && to in w.accounts
  {
    if amount > 0 then PostCash(w, from, to, amount, reference) else Success(w)
  }

  /** What the bank's books see of a transfer. */
  function BankShift(x: Measure, from: AccountId, to: AccountId, amount: int): int {
    if x.BankBooks?
    then (if to == House(Bank, x.m) then amount else 0) - (if from == House(Bank, x.m) then amount else 0)
    else 0
  }

  lemma LendMovesCash(w: World, from: AccountId, to: AccountId, amount: int, reference: int)
    requires WorldOk(w) && from in w.accounts && to in w.accounts && from != to && amount >= 0
    requires Lend(w, from, to, amount, reference).Success?
    ensures var v := Lend(w, from, to, amount, reference).value;
      && WorldOk(v) && Frame(v, w) && OnlyTouches(v, w, from, to)
      && v.accounts[from] == Richer(w.accounts[from], -amount) && v.accounts[to] == Richer(w.accounts[to], amount)
      && (forall m :: Balance(v.ledger, m) == Balance(w.ledger, m))
      && (forall x: Measure :: Sum(v, x) == Sum(w, x) + BankShift(x, from, to, amount))
  {
    hide AccountOk, PostCash;
    if amount > 0 {
      PostingShape(w, from, to, amount, reference);
      PostingKeepsWorld(w, from, to, amount, reference);
      forall x: Measure
        ensures Sum(Lend(w, from, to, amount, reference).value, x) == Sum(w, x) + BankShift(x, from, to, amount)
      {
        PostingSum(w, from, to, amount, reference, x);
      }
    } else {
      RicherByNothing(w.accounts[from]);
      RicherByNothing(w.accounts[to]);
    }
  }

  lemma RicherByNothing(a: Account)
    ensures Richer(a, 0) == a && Richer(a, -0) == a
  {
  }

  /** A change that moves no loan: collateral goes aside or comes back. */
  lemma ShortChanges(w: World, o: Order, turnover: int, price: int, quantity: int, reference: int)
    requires WorldOk(w) && o.account in w.accounts && o.account.Owned? && o.side.Short? && turnover >= 0
    requires PositionOk(PositionOf(w.accounts[o.account], o.symbol)) && w.accounts[o.account].leverage >= 1
    requires House(Bank, o.account.market) in w.accounts && Fits(w, o, quantity)
    ensures var r := ChangePosition(w, o, turnover, price, quantity, reference);
      r.Success? && Changed(w, o, turnover, quantity, r.value)
  {
    hide AccountOk, WorldOk, Marked, MovesSums, Reading, Sum, LotDebt;
    AccountFacts(w, o.account, o.symbol);
    var a := w.accounts[o.account];
    var held, c := PositionOf(a, o.symbol), Collateral(turnover);
    var p := held.(shortQuantity := held.shortQuantity + quantity, shortProceeds := held.shortProceeds + turnover,
                   collateral := held.collateral + c);
    var b := WithPosition(a, o.symbol, p).(cash := a.cash - c, collateral := a.collateral + c);
    Replaced(w, o, p, b, reference);
    PlainSums(w, o, p, b, quantity, Marked(WithAccount(w, b), o, reference));
  }

  lemma CoverChanges(w: World, o: Order, turnover: int, price: int, quantity: int, reference: int)
    requires WorldOk(w) && o.account in w.accounts && o.account.Owned? && o.side.Cover? && turnover >= 0
    requires PositionOk(PositionOf(w.accounts[o.account], o.symbol)) && w.accounts[o.account].leverage >= 1
    requires House(Bank, o.account.market) in w.accounts && Fits(w, o, quantity)
    ensures var r := ChangePosition(w, o, turnover, price, quantity, reference);
      r.Success? && Changed(w, o, turnover, quantity, r.value)
  {
    hide AccountOk, WorldOk, Marked, MovesSums, Reading, Sum, LotDebt, Share;
    AccountFacts(w, o.account, o.symbol);
    var a := w.accounts[o.account];
    var held := PositionOf(a, o.symbol);
    var released := Share(held.collateral, quantity, held.shortQuantity);
    var proceeds := Share(held.shortProceeds, quantity, held.shortQuantity);
    ShareIsPart(held.collateral, quantity, held.shortQuantity);
    ShareIsPart(held.shortProceeds, quantity, held.shortQuantity);
    var p := held.(shortQuantity := held.shortQuantity - quantity, shortProceeds := held.shortProceeds - proceeds,
                   collateral := held.collateral - released);
    var b := WithPosition(a, o.symbol, p).(cash := a.cash + released, collateral := a.collateral - released);
    Replaced(w, o, p, b, reference);
    PlainSums(w, o, p, b, quantity, Marked(WithAccount(w, b), o, reference));
  }

  lemma ShareIsPart(whole: int, quantity: int, held: int)
    requires whole >= 0 && 0 <= quantity <= held && held > 0
    ensures 0 <= Share(whole, quantity, held) <= whole
    ensures quantity == held ==> Share(whole, quantity, held) == whole
  {
    if quantity < held {
      var n := whole * quantity;
      assert 0 <= n && n <= whole * held by { assert whole * (held - quantity) >= 0; }
      DivideDown(n, held, whole);
    }
  }

  lemma PlainSums(w: World, o: Order, p: Position, b: Account, quantity: int, v: World)
    requires o.account in w.accounts && o.account.Owned? && (o.side.Short? || o.side.Cover?)
    requires w.accounts[o.account].id == o.account
    requires var a := w.accounts[o.account];
      && b == WithPosition(a, o.symbol, p).(cash := b.cash, collateral := b.collateral)
      && b.cash + b.collateral == a.cash + a.collateral
      && p.lots == PositionOf(a, o.symbol).lots
      && p.shortQuantity == PositionOf(a, o.symbol).shortQuantity + (if o.side.Short? then quantity else -quantity)
    requires forall x: Measure :: Sum(v, x) == Sum(w, x) + Reading(x, b) - Reading(x, w.accounts[o.account])
    requires forall m :: Balance(v.ledger, m) == Balance(w.ledger, m)
    ensures MovesSums(v, w, o.symbol, o.side, quantity)
  {
    forall x: Measure
      ensures Reading(x, b) - Reading(x, w.accounts[o.account]) == Delta(x, o.symbol, o.side, quantity)
    {
      ReadingWithPosition(w.accounts[o.account], o.symbol, p, x);
    }
  }

  /** A loan and the debt that matches it cancel in the bank's books; only the shares move. */
  lemma LoanSums(w: World, v: World, u: World, o: Order, p: Position, b: Account, loan: int, quantity: int)
    requires o.account in w.accounts && o.account in v.accounts && o.account.Owned?
    requires w.accounts[o.account].id == o.account
    requires o.side.Buy? || o.side.Sell?
    requires v.accounts[o.account] == Richer(w.accounts[o.account], loan)
    requires forall x: Measure :: Sum(v, x) == Sum(w, x) + BankShift(x, House(Bank, o.account.market), o.account, loan)
    requires b == WithPosition(v.accounts[o.account], o.symbol, p).(debt := w.accounts[o.account].debt + loan)
    requires p == PositionOf(w.accounts[o.account], o.symbol).(lots := p.lots)
    requires LongQuantity(p.lots)
      == LongQuantity(PositionOf(w.accounts[o.account], o.symbol).lots) + (if o.side.Buy? then quantity else -quantity)
    requires forall x: Measure :: Sum(u, x) == Sum(v, x) + Reading(x, b) - Reading(x, v.accounts[o.account])
    requires forall m :: Balance(v.ledger, m) == Balance(w.ledger, m)
    requires forall m :: Balance(u.ledger, m) == Balance(v.ledger, m)
    ensures MovesSums(u, w, o.symbol, o.side, quantity)
  {
    forall x: Measure
      ensures Sum(u, x) == Sum(w, x) + Delta(x, o.symbol, o.side, quantity)
    {
      ReadingWithPosition(v.accounts[o.account], o.symbol, p, x);
    }
  }

  /** The account is replaced after a loan was paid out, or (a negative loan) repaid. */
  lemma LoanChanges(w: World, v: World, o: Order, p: Position, b: Account, loan: int, quantity: int, reference: int)
    requires o.account in w.accounts && o.account.Owned? && w.accounts[o.account].id == o.account
    requires o.side.Buy? || o.side.Sell?
    requires WorldOk(v) && Frame(v, w) && OnlyTouches(v, w, o.account, House(Bank, o.account.market)) && PositionOk(p)
    requires o.account in v.accounts && v.accounts[o.account] == Richer(w.accounts[o.account], loan)
    requires forall x: Measure :: Sum(v, x) == Sum(w, x) + BankShift(x, House(Bank, o.account.market), o.account, loan)
    requires forall m :: Balance(v.ledger, m) == Balance(w.ledger, m)
    requires b == WithPosition(v.accounts[o.account], o.symbol, p).(debt := w.accounts[o.account].debt + loan)
    requires p == PositionOf(w.accounts[o.account], o.symbol).(lots := p.lots)
    requires LongQuantity(p.lots)
      == LongQuantity(PositionOf(w.accounts[o.account], o.symbol).lots) + (if o.side.Buy? then quantity else -quantity)
    requires LotDebt(p.lots) == LotDebt(PositionOf(w.accounts[o.account], o.symbol).lots) + loan
    ensures var u := Marked(WithAccount(v, b), o, reference);
      && WorldOk(u) && Frame(u, w) && OnlyTouches(u, w, o.account, House(Bank, o.account.market))
      && MovesSums(u, w, o.symbol, o.side, quantity) && u.accounts[o.account] == b
  {
    hide AccountOk, WorldOk, Marked, MovesSums, Reading, Sum, BankShift, PositionOk, LongQuantity, LotDebt, Balance;
    Replaced(v, o, p, b, reference);
    LoanSums(w, v, Marked(WithAccount(v, b), o, reference), o, p, b, loan, quantity);
  }

  lemma BuyChanges(w: World, o: Order, turnover: int, price: int, quantity: int, reference: int)
    requires WorldOk(w) && o.account in w.accounts && o.account.Owned? && o.side.Buy? && turnover >= 0
    requires PositionOk(PositionOf(w.accounts[o.account], o.symbol)) && w.accounts[o.account].leverage >= 1
    requires House(Bank, o.account.market) in w.accounts && Fits(w, o, quantity)
    requires ChangePosition(w, o, turnover, price, quantity, reference).Success?
    ensures Changed(w, o, turnover, quantity, ChangePosition(w, o, turnover, price, quantity, reference).value)
  {
    hide AccountOk, WorldOk, Marked, MovesSums, Reading, Sum, PostCash, Ceil, BankShift, Balance;
    AccountFacts(w, o.account, o.symbol);
    var a, bank := w.accounts[o.account], House(Bank, o.account.market);
    var held, loan := PositionOf(a, o.symbol), Borrowed(turnover, a.leverage);
    BorrowedIsPart(turnover, a.leverage);
    var v := Lend(w, bank, o.account, loan, reference).value;
    LendMovesCash(w, bank, o.account, loan, reference);
    var p := held.(lots := held.lots + [Lot(quantity, price, DayOf(w, a.id.market), loan)]);
    LotSumsConcat(held.lots, [Lot(quantity, price, DayOf(w, a.id.market), loan)]);
    LoanChanges(w, v, o, p, Bought(v.accounts[o.account], o.symbol, held, p.lots[|held.lots|]), loan, quantity,
                reference);
  }

  lemma SellChanges(w: World, o: Order, turnover: int, price: int, quantity: int, reference: int)
    requires WorldOk(w) && o.account in w.accounts && o.account.Owned? && o.side.Sell? && turnover >= 0
    requires PositionOk(PositionOf(w.accounts[o.account], o.symbol)) && w.accounts[o.account].leverage >= 1
    requires House(Bank, o.account.market) in w.accounts && Fits(w, o, quantity)
    requires ChangePosition(w, o, turnover, price, quantity, reference).Success?
    ensures Changed(w, o, turnover, quantity, ChangePosition(w, o, turnover, price, quantity, reference).value)
  {
    hide AccountOk, WorldOk, Marked, MovesSums, Reading, Sum, PostCash, RemoveLots, LotsOk, Balance;
    AccountFacts(w, o.account, o.symbol);
    var a, bank := w.accounts[o.account], House(Bank, o.account.market);
    var held := PositionOf(a, o.symbol);
    var r := RemoveLots(held.lots, quantity, a.id.market, a.actor, DayOf(w, a.id.market));
    RemovalIsExact(held.lots, quantity, a.id.market, a.actor, DayOf(w, a.id.market));
    var v := Lend(w, o.account, bank, r.debt, reference).value;
    LendMovesCash(w, o.account, bank, r.debt, reference);
    var p := held.(lots := r.lots);
    assert forall x: Measure :: BankShift(x, o.account, bank, r.debt) == BankShift(x, bank, o.account, -r.debt);
    hide BankShift;
    LoanChanges(w, v, o, p, SoldOff(v.accounts[o.account], o.symbol, held, r), -r.debt, quantity, reference);
  }

  /** Every side's position change keeps the world sound and moves shares only. */
  lemma PositionChanges(w: World, o: Order, turnover: int, price: int, quantity: int, reference: int)
    requires WorldOk(w) && o.account in w.accounts && o.account.Owned? && turnover >= 0
    requires PositionOk(PositionOf(w.accounts[o.account], o.symbol)) && w.accounts[o.account].leverage >= 1
    requires House(Bank, o.account.market) in w.accounts && Fits(w, o, quantity)
    requires ChangePosition(w, o, turnover, price, quantity, reference).Success?
    ensures Changed(w, o, turnover, quantity, ChangePosition(w, o, turnover, price, quantity, reference).value)
  {
    hide *;
    match o.side {
      case Buy => BuyChanges(w, o, turnover, price, quantity, reference);
      case Sell => SellChanges(w, o, turnover, price, quantity, reference);
      case Short => ShortChanges(w, o, turnover, price, quantity, reference);
      case Cover => CoverChanges(w, o, turnover, price, quantity, reference);
    }
  }
}
