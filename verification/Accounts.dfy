/** Accounts, positions and the world's ledger as values, with totals over accounts. */
module Accounts {
  import opened Wrappers
  import opened Money
  import Sorting

  datatype Purpose = Treasury | FeeDesk | Bank | Fx | FundReserve | Issuer

  /** House accounts are the system's own; everybody else's are `Owned`. */
  datatype AccountId = House(purpose: Purpose, market: Market) | Owned(owner: string, market: Market)

  datatype Actor = Player | Ai | Maker | System

  datatype Lot = Lot(quantity: int, cost: int, boughtDay: int, debt: int)

  datatype Position = Position(lots: seq<Lot>, shortQuantity: int, shortProceeds: int, collateral: int)

  /** Units of the two funds. */
  datatype Units = Units(money: int, etf: int)

  /** `symbols` lists the keys of `positions` in the order in which they were opened. */
  datatype Account = Account(id: AccountId, actor: Actor, cash: int, debt: int, collateral: int, leverage: int,
                             symbols: seq<string>, positions: map<string, Position>, funds: Units)

  datatype Status = Pending | Partial | Done | Cancelled | Declined

  datatype Order = Order(id: string, account: AccountId, symbol: string, side: Side, price: Option<int>,
                         triggerPrice: Option<int>,
                         quantity: int, remaining: int, filled: int, averagePrice: int, displayQuantity: int,
                         iceberg: bool, visible: int,
                         sequence: int, status: Status)

  datatype Entry = Entry(id: int, reference: int, account: AccountId, counterparty: AccountId, amount: int,
                         currency: Market)

  datatype World = World(ids: seq<AccountId>, accounts: map<AccountId, Account>, orders: seq<Order>,
                         quotes: map<string, int>,
                         days: map<Market, int>, ledger: seq<Entry>, nextId: int, sequence: int)

  function DayOf(w: World, m: Market): int { if m in w.days then w.days[m] else 0 }

  function Total<K(==), V>(keys: seq<K>, m: map<K, V>, f: V -> int): int {
    if keys == [] then 0 else (if keys[0] in m then f(m[keys[0]]) else 0) + Total(keys[1..], m, f)
  }

  lemma {:induction false} TotalFollows<K, V>(keys: seq<K>, m: map<K, V>, k: K, v: V, f: V -> int)
    requires Sorting.Distinct(keys)
    ensures Total(keys, m[k := v], f)
      == Total(keys, m, f) + if k in keys then f(v) - (if k in m then f(m[k]) else 0) else 0
  {
    if keys != [] {
      assert keys == [keys[0]] + keys[1..];
      TotalFollows(keys[1..], m, k, v, f);
      assert keys[0] == k ==> k !in keys[1..];
    }
  }

  lemma {:induction false} TotalAppends<K, V>(keys: seq<K>, k: K, m: map<K, V>, f: V -> int)
    ensures Total(keys + [k], m, f) == Total(keys, m, f) + if k in m then f(m[k]) else 0
  {
    if keys == [] {
      assert keys + [k] == [k] && [k][1..] == [];
    } else {
      assert (keys + [k])[0] == keys[0] && (keys + [k])[1..] == keys[1..] + [k];
      TotalAppends(keys[1..], k, m, f);
    }
  }

  lemma {:induction false} TotalOfNothing<K, V>(keys: seq<K>, m: map<K, V>, f: V -> int)
    requires forall k :: k in m ==> f(m[k]) >= 0
    ensures Total(keys, m, f) >= 0
    ensures forall k :: k in keys && k in m ==> f(m[k]) <= Total(keys, m, f)
  {
    if keys != [] {
      TotalOfNothing(keys[1..], m, f);
      assert forall k :: k in keys ==> k == keys[0] || k in keys[1..];
    }
  }

  function LongQuantity(lots: seq<Lot>): int {
    if lots == [] then 0 else lots[0].quantity + LongQuantity(lots[1..])
  }

  function LotDebt(lots: seq<Lot>): int {
    if lots == [] then 0 else lots[0].debt + LotDebt(lots[1..])
  }

  lemma {:induction false} LotSumsConcat(a: seq<Lot>, b: seq<Lot>)
    ensures LongQuantity(a + b) == LongQuantity(a) + LongQuantity(b) && LotDebt(a + b) == LotDebt(a) + LotDebt(b)
  {
    if a == [] {
      assert a + b == b;
    } else {
      assert (a + b)[0] == a[0] && (a + b)[1..] == a[1..] + b;
      LotSumsConcat(a[1..], b);
    }
  }

  function DebtOf(): Position -> int { (p: Position) => LotDebt(p.lots) }

  function CollateralOf(): Position -> int { (p: Position) => p.collateral }

  const EMPTY := Position([], 0, 0, 0)

  function PositionOf(a: Account, symbol: string): Position {
    if symbol in a.positions then a.positions[symbol] else EMPTY
  }

  function WithPosition(a: Account, symbol: string, p: Position): Account {
    a.(positions := a.positions[symbol := p],
       symbols := if symbol in a.positions then a.symbols else a.symbols + [symbol])
  }

  lemma OnlyPositionsDiffer(a: Account, symbol: string)
    ensures forall p :: var b := WithPosition(a, symbol, p); b == a.(symbols := b.symbols, positions := b.positions)
  {
  }

  predicate LotsOk(lots: seq<Lot>) {
    forall i :: 0 <= i < |lots| ==> lots[i].quantity > 0 && lots[i].debt >= 0
  }

  predicate PositionOk(p: Position) {
    && LotsOk(p.lots) && p.shortQuantity >= 0 && p.shortProceeds >= 0 && p.collateral >= 0
    && (p.shortQuantity == 0 ==> p.shortProceeds == 0 && p.collateral == 0)
  }

  ghost predicate KeysOk(a: Account) {
    Sorting.Distinct(a.symbols) && forall s :: s in a.positions <==> s in a.symbols
  }

  /** Debt covers the lots' debts, and collateral is exactly the positions' collateral. */
  ghost predicate AccountOk(a: Account) {
    && KeysOk(a) && a.leverage >= 1 && a.funds.money >= 0 && a.funds.etf >= 0
    && (forall s :: s in a.positions ==> PositionOk(a.positions[s]))
    && a.collateral == Total(a.symbols, a.positions, CollateralOf())
    && a.debt >= Total(a.symbols, a.positions, DebtOf())
  }

  /** Only the house may be overdrawn. */
  ghost predicate Solvent(w: World) {
    forall id :: id in w.accounts && id.Owned? ==> w.accounts[id].cash >= 0
  }

  /** What a change of one position does to the sums over positions. */
  lemma PositionSums(a: Account, symbol: string, p: Position, f: Position -> int)
    requires KeysOk(a) && f(EMPTY) == 0
    ensures KeysOk(WithPosition(a, symbol, p))
    ensures var after := WithPosition(a, symbol, p);
      Total(after.symbols, after.positions, f) == Total(a.symbols, a.positions, f) + f(p) - f(PositionOf(a, symbol))
  {
    var after := WithPosition(a, symbol, p);
    TotalFollows(a.symbols, a.positions, symbol, p, f);
    if symbol !in a.positions {
      TotalAppends(a.symbols, symbol, after.positions, f);
    }
  }

  /** An account stays sound when one position, its debt and its collateral move together. */
  lemma SoundWithPosition(a: Account, symbol: string, p: Position, b: Account)
    requires AccountOk(a) && PositionOk(p)
    requires b == WithPosition(a, symbol, p).(cash := b.cash, debt := b.debt, collateral := b.collateral)
    requires b.debt - LotDebt(p.lots) >= a.debt - LotDebt(PositionOf(a, symbol).lots)
    requires b.collateral - p.collateral == a.collateral - PositionOf(a, symbol).collateral
    ensures AccountOk(b)
  {
    PositionSums(a, symbol, p, DebtOf());
    PositionSums(a, symbol, p, CollateralOf());
  }

  ghost predicate WorldOk(w: World) {
    && Sorting.Distinct(w.ids) && (forall id :: id in w.accounts <==> id in w.ids)
    && (forall id :: id in w.accounts ==> w.accounts[id].id == id && AccountOk(w.accounts[id]))
    && (forall p, m :: House(p, m) in w.accounts && w.accounts[House(p, m)].actor == System)
    && (forall o, m :: Owned(o, m) in w.accounts ==> w.accounts[Owned(o, m)].actor != System)
  }

  /** The sums that trading must respect: value in a market, the bank's books, shares of a symbol. */
  datatype Measure = Value(m: Market) | BankBooks(m: Market) | NetShares(symbol: string) | Shorts(symbol: string)

  function Reading(x: Measure, a: Account): int {
    match x
    case Value(m) => if a.id.market == m then a.cash + a.collateral else 0
    case BankBooks(m) => (if a.id == House(Bank, m) then a.cash else 0) + (if a.id.market == m then a.debt else 0)
    case NetShares(s) => LongQuantity(PositionOf(a, s).lots) - PositionOf(a, s).shortQuantity
    case Shorts(s) => PositionOf(a, s).shortQuantity
  }

  function Of(x: Measure): Account -> int { (a: Account) => Reading(x, a) }

  function Sum(w: World, x: Measure): int { Total(w.ids, w.accounts, Of(x)) }

  /** The balance that a run of ledger entries leaves in one currency. */
  function Balance(ledger: seq<Entry>, m: Market): int {
    if ledger == [] then 0
    else
      Balance(ledger[..|ledger| - 1], m)
      + if ledger[|ledger| - 1].currency == m then ledger[|ledger| - 1].amount else 0
  }

  lemma {:induction false} BalanceAdds(a: seq<Entry>, b: seq<Entry>, m: Market)
    ensures Balance(a + b, m) == Balance(a, m) + Balance(b, m)
  {
    if b == [] {
      assert a + b == a;
    } else {
      assert (a + b)[..|a + b| - 1] == a + b[..|b| - 1];
      BalanceAdds(a, b[..|b| - 1], m);
    }
  }

  lemma IdsAreListed(w: World, id: AccountId)
    requires WorldOk(w) && id in w.accounts
    ensures Sorting.Distinct(w.ids) && id in w.ids && w.accounts[id].id == id
  {
  }

  function WithAccount(w: World, a: Account): World { w.(accounts := w.accounts[a.id := a]) }

  lemma SumFollows(w: World, a: Account, x: Measure)
    requires Sorting.Distinct(w.ids) && a.id in w.accounts && a.id in w.ids
    ensures Sum(WithAccount(w, a), x) == Sum(w, x) + Reading(x, a) - Reading(x, w.accounts[a.id])
  {
    TotalFollows(w.ids, w.accounts, a.id, a, Of(x));
  }

  /** Moves cash between two accounts of one market and books both halves. */
  function PostCash(w: World, from: AccountId, to: AccountId, amount: int, reference: int): Result<World, RuleError>
    requires from in w.accounts && to in w.accounts
  {
    if amount < 0 || from.market != to.market then Failure(InvalidLedger)
    else
      var taken :- SafeAdd(w.accounts[from].cash, -amount);
      var mid := w.accounts[from := w.accounts[from].(cash := taken)];
      var given :- SafeAdd(mid[to].cash, amount);
      Success(w.(accounts := mid[to := mid[to].(cash := given)],
                 ledger := w.ledger + [Entry(w.nextId + 1, reference, from, to, -amount, from.market),
                                       Entry(w.nextId + 2, reference, to, from, amount, from.market)],
                 nextId := w.nextId + 2))
  }

  function Richer(a: Account, amount: int): Account { a.(cash := a.cash + amount) }

  lemma PostingShape(w: World, from: AccountId, to: AccountId, amount: int, reference: int)
    requires from in w.accounts && to in w.accounts && from != to
    requires PostCash(w, from, to, amount, reference).Success?
    ensures var v := PostCash(w, from, to, amount, reference).value;
      && amount >= 0 && from.market == to.market && v.accounts.Keys == w.accounts.Keys
      && v == w.(accounts := w.accounts[from := Richer(w.accounts[from], -amount)]
                                       [to := Richer(w.accounts[to], amount)],
                 ledger := v.ledger, nextId := v.nextId)
      && (forall m :: Balance(v.ledger, m) == Balance(w.ledger, m))
  {
    var v := PostCash(w, from, to, amount, reference).value;
    var x, y := v.ledger[|w.ledger|], v.ledger[|w.ledger| + 1];
    assert v.ledger == w.ledger + [x, y];
    forall m
      ensures Balance(v.ledger, m) == Balance(w.ledger, m)
    {
      PairBalances(w.ledger, x, y, m);
    }
  }

  /** What posting does to a sum over accounts. */
  lemma PostingSum(w: World, from: AccountId, to: AccountId, amount: int, reference: int, x: Measure)
    requires WorldOk(w) && from in w.accounts && to in w.accounts && from != to
    requires PostCash(w, from, to, amount, reference).Success?
    ensures Sum(PostCash(w, from, to, amount, reference).value, x) == Sum(w, x)
      + if x.BankBooks?
        then (if to == House(Bank, x.m) then amount else 0) - (if from == House(Bank, x.m) then amount else 0)
        else 0
  {
    hide AccountOk, PostCash;
    var a, b := Richer(w.accounts[from], -amount), Richer(w.accounts[to], amount);
    PostingShape(w, from, to, amount, reference);
    SumFollows(w, a, x);
    SumFollows(WithAccount(w, a), b, x);
  }

  ghost predicate SameSums(v: World, w: World) {
    && (forall x: Measure :: Sum(v, x) == Sum(w, x))
    && (forall m :: Balance(v.ledger, m) == Balance(w.ledger, m))
  }

  lemma PairBalances(ledger: seq<Entry>, x: Entry, y: Entry, m: Market)
    requires x.currency == y.currency && x.amount == -y.amount
    ensures Balance(ledger + [x, y], m) == Balance(ledger, m)
  {
    var all := ledger + [x, y];
    assert all[..|all| - 1] == ledger + [x];
    assert (ledger + [x])[..|ledger|] == ledger;
  }
}
