/** The fund commands on the world: units against cash, with the fee, through the fund's reserve. */
module FundDesk {
  import opened Wrappers
  import opened Money
  import opened Accounts
  import opened Settlement
  import opened SettlementSteps
  import opened Trades
  import opened Commands
  import opened Compaction
  import opened Exposure
  import Funds

  function UnitsHeld(u: Units, etf: bool): int { if etf then u.etf else u.money }

  function WithUnits(a: Account, etf: bool, n: int): Account {
    a.(funds := if etf then a.funds.(etf := n) else a.funds.(money := n))
  }

  lemma ReserveExists(w: World, m: Market)
    requires WorldOk(w)
    ensures House(FundReserve, m) in w.accounts && House(FeeDesk, m) in w.accounts && House(Treasury, m) in w.accounts
  {
    assert House(FundReserve, m) in w.accounts && w.accounts[House(FundReserve, m)].actor == System;
    DesksExist(w, m);
  }

  /** Subscribes: the whole units that the amount buys, at their cost rounded up, plus the fee. */
  function BuyUnits(w: World, id: AccountId, etf: bool, amount: int, nav: int): Result<World, RuleError>
    requires WorldOk(w) && Grouped(w.ledger) && id in w.accounts && id.Owned? && nav >= 1
  {
    var a, reference := w.accounts[id], w.nextId + 1;
    if !(1 <= amount <= INITIAL_CASH * 100) then Failure(InvalidInput)
    else if Available(w, a, "") < amount then Failure(InsufficientCash)
    else
      var fee, units := Funds.FundFee(amount, etf), Funds.UnitsFor(amount, nav, etf);
      if units < 1 then Failure(FundTooSmall)
      else
        ReserveExists(w, id.market);
        var w1 :- PostCash(w.(nextId := reference), id, House(FundReserve, id.market), Funds.CostOfUnits(units, nav),
                           reference);
        PostingKeepsKeys(w.(nextId := reference), id, House(FundReserve, id.market), Funds.CostOfUnits(units, nav),
                         reference);
        var w2 :- PostCash(w1, id, House(FeeDesk, id.market), fee, reference);
        PostingKeepsKeys(w1, id, House(FeeDesk, id.market), fee, reference);
        Success(WithAccount(w2, WithUnits(w2.accounts[id], etf, UnitsHeld(a.funds, etf) + units)))
  }

  /** Redeems: the treasury lends the reserve what it lacks. */
  function SellUnits(w: World, id: AccountId, etf: bool, units: int, nav: int): Result<World, RuleError>
    requires WorldOk(w) && Grouped(w.ledger) && id in w.accounts && id.Owned? && nav >= 1
  {
    var a, reserve, reference := w.accounts[id], House(FundReserve, id.market), w.nextId + 1;
    if !(1 <= units <= INITIAL_CASH * 100) then Failure(InvalidInput)
    else if UnitsHeld(a.funds, etf) < units then Failure(InsufficientFund)
    else
      var payout := units * nav / Funds.UNIT;
      var fee, w0 := Funds.FundFee(payout, etf), w.(nextId := reference);
      ReserveExists(w, id.market);
      var missing := payout - w.accounts[reserve].cash;
      LoanKeepsKeys(w0, House(Treasury, id.market), reserve, missing, reference);
      var w1 :- Lend(w0, House(Treasury, id.market), reserve, missing, reference);
      var w2 :- PostCash(w1, reserve, id, payout - fee, reference);
      PostingKeepsKeys(w1, reserve, id, payout - fee, reference);
      var w3 :- PostCash(w2, reserve, House(FeeDesk, id.market), fee, reference);
      PostingKeepsKeys(w2, reserve, House(FeeDesk, id.market), fee, reference);
      Success(WithAccount(w3, WithUnits(w3.accounts[id], etf, UnitsHeld(a.funds, etf) - units)))
  }

  lemma LoanKeepsKeys(w: World, from: AccountId, to: AccountId, amount: int, reference: int)
    requires from in w.accounts && to in w.accounts
    ensures Lend(w, from, to, amount, reference).Success? ==>
      Lend(w, from, to, amount, reference).value.accounts.Keys == w.accounts.Keys
  {
  }

  /** A posting that may not be needed. */
  lemma ToppedUp(w: World, from: AccountId, to: AccountId, missing: int, reference: int)
    requires WorldOk(w) && Grouped(w.ledger) && from in w.accounts && to in w.accounts && from != to
    requires forall m :: from != House(Bank, m) && to != House(Bank, m)
    requires Lend(w, from, to, missing, reference).Success?
    ensures var v := Lend(w, from, to, missing, reference).value;
      && WorldOk(v) && Grouped(v.ledger) && SameSums(v, w) && Frame(v, w) && OnlyTouches(v, w, from, to)
  {
    hide PostCash, AccountOk, WorldOk, Grouped, Sum, Balance;
    if missing > 0 { Posted(w, from, to, missing, reference); }
  }

  lemma UnitsAreNoPart(a: Account, etf: bool, n: int)
    requires AccountOk(a) && n >= 0
    ensures AccountOk(WithUnits(a, etf, n)) && forall x: Measure :: Reading(x, WithUnits(a, etf, n)) == Reading(x, a)
  {
  }

  /**
   What both commands keep: every sum, the ledger's groups, everybody else's account, and cash and
   units in exchange.
   */
  ghost predicate Exchanged(v: World, w: World, id: AccountId, etf: bool, cash: int, units: int)
    requires id in w.accounts
  {
    && WorldOk(v) && Grouped(v.ledger) && SameSums(v, w) && Frame(v, w)
    && (forall x :: x in w.accounts && x.Owned? && x != id ==> v.accounts[x] == w.accounts[x])
    && v.accounts[id] == WithUnits(w.accounts[id], etf,
                                   UnitsHeld(w.accounts[id].funds, etf) + units).(cash := w.accounts[id].cash + cash)
    && UnitsHeld(w.accounts[id].funds, etf) + units >= 0
  }

  lemma UnitsArrive(u: World, w: World, id: AccountId, etf: bool, cash: int, n: int)
    requires WorldOk(u) && Grouped(u.ledger) && SameSums(u, w) && Frame(u, w) && id in w.accounts && id.Owned? && n >= 0
    requires forall x :: x in w.accounts && x.Owned? && x != id ==> u.accounts[x] == w.accounts[x]
    requires u.accounts[id] == Richer(w.accounts[id], cash)
    ensures Exchanged(WithAccount(u, WithUnits(u.accounts[id], etf, n)), w, id, etf, cash,
                      n - UnitsHeld(w.accounts[id].funds, etf))
  {
    hide AccountOk, WorldOk, Grouped, Sum, Balance, SameSums, Reading;
    AccountIsOk(u, id);
    UnitsAreNoPart(u.accounts[id], etf, n);
    SameReadings(u, WithUnits(u.accounts[id], etf, n));
    SameSumsTwice(w, u, WithAccount(u, WithUnits(u.accounts[id], etf, n)));
  }

  lemma UnitsAreNatural(w: World, id: AccountId, etf: bool)
    requires WorldOk(w) && id in w.accounts
    ensures UnitsHeld(w.accounts[id].funds, etf) >= 0
  {
  }

  lemma BuyKeepsWorld(w: World, id: AccountId, etf: bool, amount: int, nav: int)
    requires WorldOk(w) && Grouped(w.ledger) && id in w.accounts && id.Owned? && nav >= 1
    requires BuyUnits(w, id, etf, amount, nav).Success?
    ensures var units := Funds.UnitsFor(amount, nav, etf);
      var paid := Funds.CostOfUnits(units, nav) + Funds.FundFee(amount, etf);
      && Exchanged(BuyUnits(w, id, etf, amount, nav).value, w, id, etf, -paid, units)
      && 1 <= units && 1 <= amount && paid <= amount <= Available(w, w.accounts[id], "")
  {
    hide AccountOk, PostCash, WorldOk, Grouped, Sum, Balance, SameSums, Available, Funds.UnitsFor, Funds.CostOfUnits,
         Funds.FundFee, Exchanged;
    var a, reserve := w.accounts[id], House(FundReserve, id.market);
    var desk, reference := House(FeeDesk, id.market), w.nextId + 1;
    var fee, units := Funds.FundFee(amount, etf), Funds.UnitsFor(amount, nav, etf);
    var cost, w0 := Funds.CostOfUnits(units, nav), w.(nextId := reference);
    Funds.PurchaseFits(amount, nav, etf);
    ReserveExists(w, id.market);
    NextIdIsNoPart(w, reference);
    SameSumsLater(w, reference);
    Posted(w0, id, reserve, cost, reference);
    var w1 := PostCash(w0, id, reserve, cost, reference).value;
    Posted(w1, id, desk, fee, reference);
    var w2 := PostCash(w1, id, desk, fee, reference).value;
    SameSumsTwice(w, w0, w1);
    SameSumsTwice(w, w1, w2);
    UnitsAreNatural(w, id, etf);
    UnitsArrive(w2, w, id, etf, -(cost + fee), UnitsHeld(a.funds, etf) + units);
  }

  lemma SellKeepsWorld(w: World, id: AccountId, etf: bool, units: int, nav: int)
    requires WorldOk(w) && Grouped(w.ledger) && id in w.accounts && id.Owned? && nav >= 1
    requires SellUnits(w, id, etf, units, nav).Success?
    ensures Exchanged(SellUnits(w, id, etf, units, nav).value, w, id, etf, Funds.Proceeds(units, nav, etf), -units)
    ensures 1 <= units <= UnitsHeld(w.accounts[id].funds, etf) && Funds.Proceeds(units, nav, etf) >= 0
  {
    hide AccountOk, PostCash, WorldOk, Grouped, Sum, Balance, SameSums, Funds.FundFee, Exchanged;
    var a, reserve, desk := w.accounts[id], House(FundReserve, id.market), House(FeeDesk, id.market);
    var treasury, reference := House(Treasury, id.market), w.nextId + 1;
    var payout, w0 := units * nav / Funds.UNIT, w.(nextId := reference);
    var fee := Funds.FundFee(payout, etf);
    ReserveExists(w, id.market);
    NextIdIsNoPart(w, reference);
    SameSumsLater(w, reference);
    var missing := payout - w.accounts[reserve].cash;
    ToppedUp(w0, treasury, reserve, missing, reference);
    var w1 := Lend(w0, treasury, reserve, missing, reference).value;
    Posted(w1, reserve, id, payout - fee, reference);
    var w2 := PostCash(w1, reserve, id, payout - fee, reference).value;
    Posted(w2, reserve, desk, fee, reference);
    var w3 := PostCash(w2, reserve, desk, fee, reference).value;
    SameSumsTwice(w, w0, w1);
    SameSumsTwice(w, w1, w2);
    SameSumsTwice(w, w2, w3);
    UnitsArrive(w3, w, id, etf, payout - fee, UnitsHeld(a.funds, etf) - units);
  }

  lemma SoldIsOk(w: World, id: AccountId, etf: bool, units: int, nav: int)
    requires WorldOk(w) && Grouped(w.ledger) && id in w.accounts && id.Owned? && nav >= 1
    requires SellUnits(w, id, etf, units, nav).Success?
    ensures var v := SellUnits(w, id, etf, units, nav).value; WorldOk(v) && Grouped(v.ledger) && id in v.accounts
  {
    hide WorldOk, Grouped, SellUnits, SameSums, Funds.Proceeds;
    SellKeepsWorld(w, id, etf, units, nav);
  }

  /** Redeems one part after the other. */
  function SellParts(w: World, id: AccountId, etf: bool, parts: seq<nat>, nav: int): Result<World, RuleError>
    requires WorldOk(w) && Grouped(w.ledger) && id in w.accounts && id.Owned? && nav >= 1
    decreases |parts|
  {
    if parts == [] then Success(w)
    else
      var v :- SellUnits(w, id, etf, parts[0], nav);
      SoldIsOk(w, id, etf, parts[0], nav);
      SellParts(v, id, etf, parts[1..], nav)
  }

  lemma {:induction false} PartsPay(w: World, id: AccountId, etf: bool, parts: seq<nat>, nav: int)
    requires WorldOk(w) && Grouped(w.ledger) && id in w.accounts && id.Owned? && nav >= 1
    requires SellParts(w, id, etf, parts, nav).Success?
    ensures var v := SellParts(w, id, etf, parts, nav).value;
      && SameSums(v, w) && id in v.accounts
      && v.accounts[id].cash == w.accounts[id].cash + Funds.ProceedsOfAll(parts, nav, etf)
      && UnitsHeld(v.accounts[id].funds, etf) == UnitsHeld(w.accounts[id].funds, etf) - Funds.UnitsOfAll(parts)
    decreases |parts|
  {
    hide WorldOk, Grouped, SellUnits, SameSums, Funds.Proceeds;
    if parts == [] {
      SameSumsRefl(w);
    } else {
      SellKeepsWorld(w, id, etf, parts[0], nav);
      var u := SellUnits(w, id, etf, parts[0], nav).value;
      PartsPay(u, id, etf, parts[1..], nav);
      SameSumsTwice(w, u, SellParts(u, id, etf, parts[1..], nav).value);
    }
  }

  /**
   Whoever buys units and sells them off again at the same price, at once or in parts, has no more
   cash than before.
   */
  lemma FundRoundTripLoses(w: World, id: AccountId, etf: bool, amount: int, parts: seq<nat>, nav: int)
    requires WorldOk(w) && Grouped(w.ledger) && id in w.accounts && id.Owned? && nav >= 1
    requires BuyUnits(w, id, etf, amount, nav).Success?
    requires Funds.UnitsOfAll(parts) <= Funds.UnitsFor(amount, nav, etf)
    ensures var u := BuyUnits(w, id, etf, amount, nav).value;
      && WorldOk(u) && Grouped(u.ledger) && id in u.accounts
      && (SellParts(u, id, etf, parts, nav).Success? ==>
           var v := SellParts(u, id, etf, parts, nav).value;
           && SameSums(v, w) && id in v.accounts && v.accounts[id].cash <= w.accounts[id].cash
           && UnitsHeld(v.accounts[id].funds, etf)
              == UnitsHeld(w.accounts[id].funds, etf) + Funds.UnitsFor(amount, nav, etf) - Funds.UnitsOfAll(parts))
  {
    hide WorldOk, Grouped, BuyUnits, SellParts, SameSums, Funds.UnitsFor, Funds.UnitsOfAll, Funds.ProceedsOfAll,
         Funds.CostOfUnits, Funds.FundFee;
    BuyKeepsWorld(w, id, etf, amount, nav);
    var u := BuyUnits(w, id, etf, amount, nav).value;
    if SellParts(u, id, etf, parts, nav).Success? {
      PartsPay(u, id, etf, parts, nav);
      Funds.SellingBackReturnsNoMore(amount, nav, etf, parts);
      SameSumsTwice(w, u, SellParts(u, id, etf, parts, nav).value);
    }
  }
}
