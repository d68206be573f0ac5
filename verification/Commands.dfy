/** Player commands that move money: repaying a loan and moving cash between markets. */
module Commands {
  import opened Wrappers
  import opened Numbers
  import opened Money
  import opened Accounts
  import opened Settlement
  import opened SettlementSteps
  import opened Trades
  import Sorting

  const INITIAL_CASH := 100_000_000

  datatype Payment = Payment(lots: seq<Lot>, left: int)

  /** Pays down the lots' loans in order until the money is used up. */
  function PayLots(lots: seq<Lot>, amount: int): Payment {
    if lots == [] then Payment([], amount)
    else
      var paid := Lesser(amount, lots[0].debt);
      var r := PayLots(lots[1..], amount - paid);
      Payment([lots[0].(debt := lots[0].debt - paid)] + r.lots, r.left)
  }

  function PayPositions(symbols: seq<string>, positions: map<string, Position>, amount: int): map<string, Position> {
    if symbols == [] then positions
    else if symbols[0] !in positions then PayPositions(symbols[1..], positions, amount)
    else
      var p := positions[symbols[0]];
      var r := PayLots(p.lots, amount);
      PayPositions(symbols[1..], positions[symbols[0] := p.(lots := r.lots)], r.left)
  }

  lemma {:induction false} PayLotsIsExact(lots: seq<Lot>, amount: int)
    requires LotsOk(lots) && amount >= 0
    ensures var r := PayLots(lots, amount);
      && LotsOk(r.lots) && LongQuantity(r.lots) == LongQuantity(lots)
      && 0 <= r.left <= amount && LotDebt(r.lots) == LotDebt(lots) - (amount - r.left)
      && (r.left > 0 ==> LotDebt(r.lots) == 0)
  {
    if lots != [] {
      var paid := Lesser(amount, lots[0].debt);
      PayLotsIsExact(lots[1..], amount - paid);
      var r := PayLots(lots[1..], amount - paid);
      assert ([lots[0].(debt := lots[0].debt - paid)] + r.lots)[1..] == r.lots;
    }
  }

  /** What paying does to the positions: loans shrink by the amount, shares and shorts stay. */
  ghost predicate PaidDown(before: map<string, Position>, after: map<string, Position>) {
    && after.Keys == before.Keys
    && forall s :: s in before ==>
         && PositionOk(after[s]) && LongQuantity(after[s].lots) == LongQuantity(before[s].lots)
         && after[s] == before[s].(lots := after[s].lots)
  }

  lemma {:induction false} PayPositionsKeepsShares(symbols: seq<string>, positions: map<string, Position>, amount: int)
    requires amount >= 0 && forall s :: s in positions ==> PositionOk(positions[s])
    ensures PaidDown(positions, PayPositions(symbols, positions, amount))
  {
    if symbols != [] {
      if symbols[0] !in positions {
        PayPositionsKeepsShares(symbols[1..], positions, amount);
      } else {
        var p := positions[symbols[0]];
        PayLotsIsExact(p.lots, amount);
        var next := positions[symbols[0] := p.(lots := PayLots(p.lots, amount).lots)];
        PayPositionsKeepsShares(symbols[1..], next, PayLots(p.lots, amount).left);
        assert PaidDown(positions, next);
      }
    }
  }

  lemma {:induction false} PayLeavesOthers(symbols: seq<string>, positions: map<string, Position>, amount: int,
                                           s: string)
    requires s !in symbols
    ensures s in positions <==> s in PayPositions(symbols, positions, amount)
    ensures s in positions ==> PayPositions(symbols, positions, amount)[s] == positions[s]
  {
    if symbols != [] {
      if symbols[0] !in positions {
        PayLeavesOthers(symbols[1..], positions, amount, s);
      } else {
        var p := positions[symbols[0]];
        var r := PayLots(p.lots, amount);
        PayLeavesOthers(symbols[1..], positions[symbols[0] := p.(lots := r.lots)], r.left, s);
      }
    }
  }

  /** Lot debts fall by what was paid, or to nothing. */
  lemma {:induction false} PayPositionsIsExact(symbols: seq<string>, positions: map<string, Position>, amount: int)
    requires Sorting.Distinct(symbols) && amount >= 0 && forall s :: s in positions ==> PositionOk(positions[s])
    ensures var was := Total(symbols, positions, DebtOf());
      Total(symbols, PayPositions(symbols, positions, amount), DebtOf()) == if amount <= was then was - amount else 0
  {
    if symbols != [] {
      var s, rest := symbols[0], symbols[1..];
      assert symbols == [s] + rest && s !in rest;
      LotDebtsAreNotNegative(rest, positions);
      if s !in positions {
        PayPositionsIsExact(rest, positions, amount);
        PayLeavesOthers(rest, positions, amount, s);
      } else {
        var p := positions[s];
        var r := PayLots(p.lots, amount);
        PayLotsIsExact(p.lots, amount);
        LotDebtIsNotNegative(r.lots);
        var next := positions[s := p.(lots := r.lots)];
        PayPositionsIsExact(rest, next, r.left);
        PayLeavesOthers(rest, next, r.left, s);
        TotalFollows(rest, positions, s, next[s], DebtOf());
      }
    }
  }

  lemma {:induction false} LotDebtIsNotNegative(lots: seq<Lot>)
    requires LotsOk(lots)
    ensures LotDebt(lots) >= 0
  {
    if lots != [] { LotDebtIsNotNegative(lots[1..]); }
  }

  lemma LotDebtsAreNotNegative(symbols: seq<string>, positions: map<string, Position>)
    requires forall s :: s in positions ==> PositionOk(positions[s])
    ensures Total(symbols, positions, DebtOf()) >= 0
  {
    forall s | s in positions
      ensures DebtOf()(positions[s]) >= 0
    {
      LotDebtIsNotNegative(positions[s].lots);
    }
    TotalOfNothing(symbols, positions, DebtOf());
  }

  /** The account once `amount` of its loan is repaid, cash aside. */
  function PaidAccount(a: Account, amount: int): Account {
    a.(debt := a.debt - amount, positions := PayPositions(a.symbols, a.positions, amount))
  }

  lemma PaidAccountIsSound(a: Account, amount: int)
    requires AccountOk(a) && 0 <= amount <= a.debt
    ensures AccountOk(PaidAccount(a, amount))
    ensures forall x: Measure ::
      Reading(x, PaidAccount(a, amount)) == Reading(x, a) - if x.BankBooks? && a.id.market == x.m then amount else 0
  {
    var b := PaidAccount(a, amount);
    PayPositionsKeepsShares(a.symbols, a.positions, amount);
    PayPositionsIsExact(a.symbols, a.positions, amount);
    SameTotals(a.symbols, a.positions, b.positions);
    assert forall s :: s in a.positions <==> s in b.positions;
    forall x: Measure
      ensures Reading(x, b) == Reading(x, a) - if x.BankBooks? && a.id.market == x.m then amount else 0
    {
    }
  }

  lemma PaysDebtOnly(a: Account, amount: int)
    ensures var b := PaidAccount(a, amount);
      b.id == a.id && b.actor == a.actor && b.cash == a.cash && b.debt == a.debt - amount
  {
  }

  lemma {:induction false} SameTotals(symbols: seq<string>, before: map<string, Position>, after: map<string, Position>)
    requires PaidDown(before, after)
    ensures Total(symbols, after, CollateralOf()) == Total(symbols, before, CollateralOf())
  {
    if symbols != [] { SameTotals(symbols[1..], before, after); }
  }

  /** Repays part of a loan out of unreserved cash. */
  function Repay(w: World, id: AccountId, amount: int): Result<World, RuleError>
    requires id in w.accounts && House(Bank, id.market) in w.accounts
  {
    var a := w.accounts[id];
    if !(1 <= amount <= a.debt) then Failure(InvalidInput)
    else if Available(w, a, "") < amount then Failure(InsufficientCash)
    else
      var v :- PostCash(w.(nextId := w.nextId + 1), id, House(Bank, id.market), amount, w.nextId + 1);
      Success(WithAccount(v, PaidAccount(v.accounts[id], amount)))
  }

  lemma RepayKeepsWorld(w: World, id: AccountId, amount: int)
    requires WorldOk(w) && id in w.accounts && id.Owned? && House(Bank, id.market) in w.accounts
    requires Repay(w, id, amount).Success?
    ensures var v := Repay(w, id, amount).value;
      && WorldOk(v) && SameSums(v, w) && v.accounts.Keys == w.accounts.Keys && v.orders == w.orders && v.ids == w.ids
      && OnlyTouches(v, w, id, House(Bank, id.market))
      && v.accounts[id].cash == w.accounts[id].cash - amount && v.accounts[id].debt == w.accounts[id].debt - amount
      && Available(w, w.accounts[id], "") >= amount >= 1
  {
    hide AccountOk, Available, PayPositions, Reading, PostCash, WorldOk, PaidAccount, Balance;
    AccountFacts(w, id, "");
    var w0, bank := w.(nextId := w.nextId + 1), House(Bank, id.market);
    NextIdIsNoPart(w, w.nextId + 1);
    var v := PostCash(w0, id, bank, amount, w.nextId + 1).value;
    PostingShape(w0, id, bank, amount, w.nextId + 1);
    PostingKeepsWorld(w0, id, bank, amount, w.nextId + 1);
    assert v.accounts[id] == Richer(w.accounts[id], -amount) && v.accounts[id].id == id;
    AccountFacts(v, id, "");
    PaidAccountIsSound(v.accounts[id], amount);
    PaysDebtOnly(v.accounts[id], amount);
    IdsAreListed(v, id);
    ReplaceKeepsWorld(v, PaidAccount(v.accounts[id], amount));
    forall x: Measure
      ensures Sum(Repay(w, id, amount).value, x) == Sum(w, x)
    {
      PostingSum(w0, id, bank, amount, w.nextId + 1, x);
      SumFollows(v, PaidAccount(v.accounts[id], amount), x);
    }
  }

  /**
   Converts cash into another market's currency through the exchange desks, unless one of the
   accounts is in a season.
   */
  function Transfer(w: World, owner: string, from: Market, to: Market, amount: int,
                    inSeason: bool): Result<World, RuleError>
    requires WorldOk(w) && Owned(owner, from) in w.accounts && Owned(owner, to) in w.accounts
  {
    var source, target := Owned(owner, from), Owned(owner, to);
    if from == to then Failure(SameMarket)
    else if !(1 <= amount <= INITIAL_CASH * 10) then Failure(InvalidInput)
    else if inSeason then Failure(SeasonLocked)
    else if Available(w, w.accounts[source], "") < amount then Failure(InsufficientCash)
    else if Exchange(amount, from, to).received < 1 then Failure(TransferTooSmall)
    else
      var c, reference := Exchange(amount, from, to), w.nextId + 1;
      DesksExist(w, from);
      DesksExist(w, to);
      var w0 := w.(nextId := reference);
      NextIdIsNoPart(w, reference);
      var w1 :- PostCash(w0, source, House(Fx, from), amount - c.fee, reference);
      PostingKeepsWorld(w0, source, House(Fx, from), amount - c.fee, reference);
      var w2 :- PostCash(w1, source, House(FeeDesk, from), c.fee, reference);
      PostingKeepsWorld(w1, source, House(FeeDesk, from), c.fee, reference);
      PostCash(w2, House(Fx, to), target, c.received, reference)
  }

  lemma DesksExist(w: World, m: Market)
    requires WorldOk(w)
    ensures House(Fx, m) in w.accounts && House(FeeDesk, m) in w.accounts && House(Bank, m) in w.accounts
    ensures House(Treasury, m) in w.accounts
  {
    assert House(Fx, m) in w.accounts && w.accounts[House(Fx, m)].actor == System;
    assert House(FeeDesk, m) in w.accounts && w.accounts[House(FeeDesk, m)].actor == System;
    assert House(Bank, m) in w.accounts && w.accounts[House(Bank, m)].actor == System;
    assert House(Treasury, m) in w.accounts && w.accounts[House(Treasury, m)].actor == System;
  }

  lemma HousePosting(w: World, from: AccountId, to: AccountId, amount: int, reference: int)
    requires WorldOk(w) && from in w.accounts && to in w.accounts && from != to
    requires PostCash(w, from, to, amount, reference).Success?
    requires forall m :: from != House(Bank, m) && to != House(Bank, m)
    ensures var v := PostCash(w, from, to, amount, reference).value;
      && WorldOk(v) && SameSums(v, w) && Frame(v, w) && OnlyTouches(v, w, from, to)
      && v.accounts[from] == Richer(w.accounts[from], -amount) && v.accounts[to] == Richer(w.accounts[to], amount)
  {
    hide AccountOk, PostCash;
    PostingShape(w, from, to, amount, reference);
    PostingKeepsWorld(w, from, to, amount, reference);
    forall x: Measure
      ensures Sum(PostCash(w, from, to, amount, reference).value, x) == Sum(w, x)
    {
      PostingSum(w, from, to, amount, reference, x);
    }
  }

  lemma SameSumsTwice(u: World, v: World, w: World)
    requires SameSums(v, u) && SameSums(w, v)
    ensures SameSums(w, u)
  {
    hide Sum, Balance;
  }

  /** The amount and the fee leave the source account for the house. */
  lemma PaysOut(w: World, source: AccountId, net: int, fee: int, reference: int)
    requires WorldOk(w) && source in w.accounts && source.Owned? && House(Fx, source.market) in w.accounts
    requires House(FeeDesk, source.market) in w.accounts
    requires PostCash(w, source, House(Fx, source.market), net, reference).Success?
    requires var w1 := PostCash(w, source, House(Fx, source.market), net, reference).value;
      && source in w1.accounts && House(FeeDesk, source.market) in w1.accounts
      && PostCash(w1, source, House(FeeDesk, source.market), fee, reference).Success?
    ensures var w1 := PostCash(w, source, House(Fx, source.market), net, reference).value;
      var w2 := PostCash(w1, source, House(FeeDesk, source.market), fee, reference).value;
      && WorldOk(w2) && SameSums(w2, w) && Frame(w2, w)
      && w2.accounts[source].cash == w.accounts[source].cash - net - fee
      && (forall id :: id in w.accounts && id.Owned? && id != source ==> w2.accounts[id] == w.accounts[id])
  {
    hide AccountOk, PostCash, WorldOk, Sum, Balance, SameSums;
    HousePosting(w, source, House(Fx, source.market), net, reference);
    var w1 := PostCash(w, source, House(Fx, source.market), net, reference).value;
    HousePosting(w1, source, House(FeeDesk, source.market), fee, reference);
    SameSumsTwice(w, w1, PostCash(w1, source, House(FeeDesk, source.market), fee, reference).value);
  }

  /** A transfer keeps every market's value where it is: each currency stays within its own market. */
  lemma TransferKeepsWorld(w: World, owner: string, from: Market, to: Market, amount: int, inSeason: bool)
    requires WorldOk(w) && Owned(owner, from) in w.accounts && Owned(owner, to) in w.accounts
    requires Transfer(w, owner, from, to, amount, inSeason).Success?
    ensures var v, c := Transfer(w, owner, from, to, amount, inSeason).value, Exchange(amount, from, to);
      && WorldOk(v) && SameSums(v, w) && v.accounts.Keys == w.accounts.Keys && v.orders == w.orders && v.ids == w.ids
      && v.accounts[Owned(owner, from)].cash == w.accounts[Owned(owner, from)].cash - amount
      && v.accounts[Owned(owner, to)].cash == w.accounts[Owned(owner, to)].cash + c.received
      && Available(w, w.accounts[Owned(owner, from)], "") >= amount >= 1 && c.received >= 1
      && (forall id :: id in w.accounts && id.Owned? && id != Owned(owner, from) && id != Owned(owner, to) ==>
          v.accounts[id] == w.accounts[id])
  {
    hide AccountOk, PostCash, Exchange, Available, WorldOk, Balance, Sum, SameSums;
    var c, reference := Exchange(amount, from, to), w.nextId + 1;
    var source, target := Owned(owner, from), Owned(owner, to);
    DesksExist(w, from);
    DesksExist(w, to);
    NextIdIsNoPart(w, reference);
    var w0 := w.(nextId := reference);
    SameSumsLater(w, reference);
    PostingShape(w0, source, House(Fx, from), amount - c.fee, reference);
    var w1 := PostCash(w0, source, House(Fx, from), amount - c.fee, reference).value;
    var w2 := PostCash(w1, source, House(FeeDesk, from), c.fee, reference).value;
    PaysOut(w0, source, amount - c.fee, c.fee, reference);
    HousePosting(w2, House(Fx, to), target, c.received, reference);
    var v := PostCash(w2, House(Fx, to), target, c.received, reference).value;
    SameSumsTwice(w, w0, w2);
    SameSumsTwice(w, w2, v);
  }

  lemma SameSumsLater(w: World, n: int)
    requires WorldOk(w)
    ensures SameSums(w.(nextId := n), w)
  {
    hide AccountOk, Balance;
    NextIdIsNoPart(w, n);
  }
}
