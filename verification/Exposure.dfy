/** Commands that need an account without exposure: choosing a leverage, and starting over. */
module Exposure {
  import opened Wrappers
  import opened Money
  import opened Accounts
  import opened Settlement
  import opened SettlementSteps
  import opened Trades
  import opened Commands
  import opened Compaction

  const MAX_LEVERAGE := 3

  predicate HoldsShares(a: Account) {
    exists s :: s in a.positions && (LongQuantity(a.positions[s].lots) > 0 || a.positions[s].shortQuantity > 0)
  }

  predicate HasLiveOrders(orders: seq<Order>, id: AccountId) {
    exists i :: 0 <= i < |orders| && orders[i].account == id && Live(orders[i])
  }

  function SetLeverage(w: World, id: AccountId, leverage: int): Result<World, RuleError>
    requires id in w.accounts
  {
    var a := w.accounts[id];
    if !(1 <= leverage <= MAX_LEVERAGE) then Failure(InvalidInput)
    else if a.debt > 0 || HoldsShares(a) || HasLiveOrders(w.orders, id) then Failure(ExposureExists)
    else Success(w.(accounts := w.accounts[id := a.(leverage := leverage)]))
  }

  /** Without live orders nothing is set aside, whatever the leverage. */
  lemma {:induction false} NothingReserved(w: World, orders: seq<Order>, a: Account, except: string)
    requires !HasLiveOrders(orders, a.id)
    ensures ReservedCash(w, orders, a, except) == 0
  {
    if orders != [] {
      assert !HasLiveOrders(orders[1..], a.id) by {
        assert forall i :: 0 <= i < |orders| - 1 ==> orders[1..][i] == orders[i + 1];
      }
      NothingReserved(w, orders[1..], a, except);
    }
  }

  /** A new leverage is refused where it would reprice a reservation; where it is granted, only the leverage changes. */
  lemma LeverageKeepsWorld(w: World, id: AccountId, leverage: int)
    requires WorldOk(w) && id in w.accounts && id.Owned? && SetLeverage(w, id, leverage).Success?
    ensures var v := SetLeverage(w, id, leverage).value;
      && WorldOk(v) && SameSums(v, w) && v == w.(accounts := v.accounts) && v.accounts.Keys == w.accounts.Keys
      && OnlyTouches(v, w, id, id)
      && v.accounts[id] == w.accounts[id].(leverage := leverage) && 1 <= leverage <= MAX_LEVERAGE
      && Available(v, v.accounts[id], "") == Available(w, w.accounts[id], "") == w.accounts[id].cash
  {
    hide AccountOk, Balance, HoldsShares, HasLiveOrders, WorldOk;
    AccountFacts(w, id, "");
    IdsAreListed(w, id);
    var a := w.accounts[id].(leverage := leverage);
    var v := SetLeverage(w, id, leverage).value;
    LeverageIsSound(w.accounts[id], leverage);
    ReplaceKeepsWorld(w, a);
    NothingReserved(w, w.orders, w.accounts[id], "");
    NothingReserved(v, v.orders, v.accounts[id], "");
    forall x: Measure
      ensures Sum(v, x) == Sum(w, x)
    {
      SumFollows(w, a, x);
    }
  }

  lemma LeverageIsSound(a: Account, leverage: int)
    requires AccountOk(a) && leverage >= 1
    ensures AccountOk(a.(leverage := leverage))
  {
  }

  function Cleared(a: Account): Account { a.(symbols := [], positions := map[]) }

  /** Starts over: the treasury tops the cash up, or takes back what is too much. */
  function Reset(w: World, id: AccountId, inSeason: bool): Result<World, RuleError>
    requires id in w.accounts && House(Treasury, id.market) in w.accounts
  {
    var a, reference := w.accounts[id], w.nextId + 1;
    if inSeason || a.debt != 0 || a.collateral != 0 || a.funds != Units(0, 0)
      || HoldsShares(a) || HasLiveOrders(w.orders, id) then Failure(ResetBlocked)
    else
      var difference, w0 := INITIAL_CASH - a.cash, w.(nextId := reference);
      var v :- if difference > 0 then PostCash(w0, House(Treasury, id.market), id, difference, reference)
               else if difference < 0 then PostCash(w0, id, House(Treasury, id.market), -difference, reference)
               else Success(w0);
      Success(v.(accounts := v.accounts[id := Cleared(v.accounts[id])]))
  }

  /** Empty positions may go: no sum misses them. */
  lemma ClearingIsSound(a: Account)
    requires AccountOk(a) && a.debt == 0 && a.collateral == 0 && !HoldsShares(a)
    ensures AccountOk(Cleared(a)) && forall x: Measure :: Reading(x, Cleared(a)) == Reading(x, a)
  {
    forall s
      ensures LongQuantity(PositionOf(a, s).lots) == 0 && PositionOf(a, s).shortQuantity == 0
    {
      if s in a.positions {
        assert PositionOk(a.positions[s]);
        LongIsNatural(a.positions[s].lots);
      }
    }
    assert Total(Cleared(a).symbols, Cleared(a).positions, CollateralOf()) == 0;
    assert Total(Cleared(a).symbols, Cleared(a).positions, DebtOf()) == 0;
    forall x: Measure
      ensures Reading(x, Cleared(a)) == Reading(x, a)
    {
    }
  }

  lemma {:induction false} LongIsNatural(lots: seq<Lot>)
    requires LotsOk(lots)
    ensures LongQuantity(lots) >= 0
  {
    if lots != [] { LongIsNatural(lots[1..]); }
  }

  /** One posting that leaves the banks alone: every sum, the ledger's groups and all other accounts stay. */
  lemma Posted(w: World, from: AccountId, to: AccountId, amount: int, reference: int)
    requires WorldOk(w) && Grouped(w.ledger) && from in w.accounts && to in w.accounts && from != to
    requires PostCash(w, from, to, amount, reference).Success?
    requires forall m :: from != House(Bank, m) && to != House(Bank, m)
    ensures var v := PostCash(w, from, to, amount, reference).value;
      && WorldOk(v) && Grouped(v.ledger) && SameSums(v, w) && Frame(v, w) && OnlyTouches(v, w, from, to) && amount >= 0
      && v.accounts[from] == Richer(w.accounts[from], -amount) && v.accounts[to] == Richer(w.accounts[to], amount)
  {
    hide PostCash, AccountOk, WorldOk, Grouped, Sum, Balance;
    HousePosting(w, from, to, amount, reference);
    PostingGroups(w, from, to, amount, reference);
    PostingIsNatural(w, from, to, amount, reference);
  }

  lemma PostingIsNatural(w: World, from: AccountId, to: AccountId, amount: int, reference: int)
    requires from in w.accounts && to in w.accounts && PostCash(w, from, to, amount, reference).Success?
    ensures amount >= 0
  {
  }

  /** An account replaced by one with the same readings. */
  lemma SameReadings(w: World, a: Account)
    requires WorldOk(w) && a.id in w.accounts && AccountOk(a) && a.actor == w.accounts[a.id].actor
    requires forall x: Measure :: Reading(x, a) == Reading(x, w.accounts[a.id])
    ensures WorldOk(WithAccount(w, a)) && SameSums(WithAccount(w, a), w)
  {
    hide AccountOk, Reading, Balance;
    ReplaceKeepsWorld(w, a);
    forall x: Measure
      ensures Sum(WithAccount(w, a), x) == Sum(w, x)
    {
      SumFollows(w, a, x);
    }
  }

  /** The cash is the starting capital again, nothing is held, and no sum has moved. */
  lemma ResetKeepsWorld(w: World, id: AccountId, inSeason: bool)
    requires WorldOk(w) && Grouped(w.ledger) && id in w.accounts && id.Owned?
    requires House(Treasury, id.market) in w.accounts
    requires Reset(w, id, inSeason).Success?
    ensures var v := Reset(w, id, inSeason).value;
      && WorldOk(v) && Grouped(v.ledger) && SameSums(v, w) && Frame(v, w)
      && OnlyTouches(v, w, id, House(Treasury, id.market))
      && v.accounts[id] == Cleared(w.accounts[id].(cash := INITIAL_CASH))
  {
    hide AccountOk, PostCash, WorldOk, Grouped, Sum, Balance, HoldsShares, HasLiveOrders, SameSums;
    var treasury, reference, difference := House(Treasury, id.market), w.nextId + 1, INITIAL_CASH - w.accounts[id].cash;
    var w0 := w.(nextId := reference);
    NextIdIsNoPart(w, reference);
    SameSumsLater(w, reference);
    if difference > 0 { Posted(w0, treasury, id, difference, reference); }
    if difference < 0 { Posted(w0, id, treasury, -difference, reference); }
    var v := if difference > 0 then PostCash(w0, treasury, id, difference, reference).value
             else if difference < 0 then PostCash(w0, id, treasury, -difference, reference).value else w0;
    SameSumsRefl(w0);
    SameSumsTwice(w, w0, v);
    assert v.accounts[id] == w.accounts[id].(cash := INITIAL_CASH);
    AccountIsOk(v, id);
    HoldsAsBefore(w.accounts[id], INITIAL_CASH);
    ClearingIsSound(v.accounts[id]);
    SameReadings(v, Cleared(v.accounts[id]));
    SameSumsTwice(w, v, WithAccount(v, Cleared(v.accounts[id])));
  }

  lemma SameSumsRefl(w: World)
    ensures SameSums(w, w)
  {
  }

  lemma AccountIsOk(w: World, id: AccountId)
    requires WorldOk(w) && id in w.accounts
    ensures AccountOk(w.accounts[id]) && w.accounts[id].id == id
  {
  }

  lemma HoldsAsBefore(a: Account, cash: int)
    ensures HoldsShares(a.(cash := cash)) <==> HoldsShares(a)
  {
  }
}
