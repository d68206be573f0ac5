/**
 The laboratory's limit order book. `Valid` is the invariant of every reachable book: reservations are
 exact, nobody is overdrawn, the sides are prioritised and uncrossed, totals are conserved. The
 reservation check made at run time stands here as a method that is proved to answer yes.
 */
module LabBook {
  import opened Wrappers
  import opened Numbers
  import opened LabMoney
  import opened LabState
  import opened LabFlow
  import opened LabFill
  import opened LabRest
  import opened LabSweep
  import opened LabRun
  import opened LabSubmit
  import Sorting

  predicate InRange(value: int, low: int, high: int) { low <= value <= high }

  /** What the constructor accepts; anything else it refuses to build. */
  ghost predicate AcceptableAccounts(list: seq<Account>, feeBps: int) {
    && InRange(feeBps, 0, MAX_FEE_BPS) && |list| <= MAX_ACCOUNTS
    && (forall i :: 0 <= i < |list| ==>
      && IsIdentifier(list[i].id) && InRange(list[i].cash, 0, MAX_CASH_CENTS)
      && InRange(list[i].inventory, 0, MAX_INVENTORY_SHARES)
      && InRange(list[i].initialCash, 0, MAX_CASH_CENTS) && InRange(list[i].initialInventory, 0, MAX_INVENTORY_SHARES)
      && InRange(list[i].targetInventory, 0, MAX_INVENTORY_SHARES))
    && (forall i, j :: 0 <= i < j < |list| ==> list[i].id != list[j].id)
  }

  function Opened(a: Account): Account { a.(reservedCash := 0, reservedInventory := 0) }

  function AccountMap(list: seq<Account>): map<string, Account> {
    if list == [] then map[] else AccountMap(list[..|list| - 1])[list[|list| - 1].id := Opened(list[|list| - 1])]
  }

  lemma AccountMapGrows(list: seq<Account>, i: nat)
    requires i < |list|
    ensures AccountMap(list[..i + 1]) == AccountMap(list[..i])[list[i].id := Opened(list[i])]
  {
    assert list[..i + 1][..i] == list[..i];
  }

  lemma EmptyMap()
    ensures AccountMap([]) == map[]
  {
  }

  function IdsOf(list: seq<Account>): (r: seq<string>)
    ensures |r| == |list| && forall i :: 0 <= i < |r| ==> r[i] == list[i].id
  {
    seq(|list|, i requires 0 <= i < |list| => list[i].id)
  }

  /** The book in which nothing has happened yet. */
  function OpenedBook(list: seq<Account>, feeBps: nat): Book {
    Book(feeBps, IdsOf(list), AccountMap(list), [], [], {}, 0, [], 0)
  }

  lemma {:induction false} SumsAreBounded(ids: seq<string>, accounts: map<string, Account>)
    requires forall id :: id in accounts ==>
      0 <= accounts[id].cash <= MAX_CASH_CENTS && 0 <= accounts[id].inventory <= MAX_INVENTORY_SHARES
    ensures 0 <= SumCash(ids, accounts) <= |ids| * MAX_CASH_CENTS
    ensures 0 <= SumShares(ids, accounts) <= |ids| * MAX_INVENTORY_SHARES
  {
    if ids != [] { SumsAreBounded(ids[1..], accounts); }
  }

  lemma IdsDiffer(list: seq<Account>, feeBps: int)
    requires AcceptableAccounts(list, feeBps)
    ensures feeBps >= 0 && forall i, j :: 0 <= i < j < |list| ==> list[i].id != list[j].id
  {
  }

  ghost predicate JustOpened(list: seq<Account>, b: Book) {
    && AcceptableAccounts(list, b.feeBps) && |b.ids| == |list|
    && (forall j :: 0 <= j < |list| ==>
        b.ids[j] == list[j].id && list[j].id in b.accounts && b.accounts[list[j].id] == Opened(list[j]))
    && (forall id :: id in b.accounts <==> id in b.ids)
    && b.bids == b.asks == [] && b.used == {} && b.feePool == 0 && b.trades == [] && b.flow == 0
  }

  lemma OpeningAccounts(list: seq<Account>, b: Book)
    requires JustOpened(list, b)
    ensures AccountsOk(b) && ReservationsExact(b)
    ensures forall id :: id in b.accounts ==>
      0 <= b.accounts[id].cash <= MAX_CASH_CENTS && 0 <= b.accounts[id].inventory <= MAX_INVENTORY_SHARES
  {
    hide IsIdentifier;
    forall id | id in b.accounts
      ensures exists j :: 0 <= j < |list| && list[j].id == id
    {
      var j :| 0 <= j < |b.ids| && b.ids[j] == id;
      assert list[j].id == id;
    }
  }

  /** A book that has just been opened is valid. */
  lemma OpeningBookIsValid(list: seq<Account>, b: Book)
    requires JustOpened(list, b)
    ensures ValidBook(b, SumCash(b.ids, b.accounts), SumShares(b.ids, b.accounts))
  {
    hide AccountsOk, ReservationsExact, AcceptableAccounts;
    OpeningAccounts(list, b);
    assert |b.ids| <= MAX_ACCOUNTS by { FewAccounts(list, b); }
    SumsAreBounded(b.ids, b.accounts);
  }

  lemma FewAccounts(list: seq<Account>, b: Book)
    requires JustOpened(list, b)
    ensures |b.ids| <= MAX_ACCOUNTS
  {
  }

  class FiniteOrderBook {
    const feeBps: nat
    var accounts: map<string, Account>
    var accountIds: seq<string>
    var bids: seq<Order>
    var asks: seq<Order>
    var tradeLog: seq<Trade>
    var usedIds: set<string>
    var feePool: int
    var quoteFlow: int
    ghost const totalCash: int
    ghost const totalShares: int

    ghost function View(): Book
      reads this
    {
      Book(feeBps, accountIds, accounts, bids, asks, usedIds, feePool, tradeLog, quoteFlow)
    }

    ghost predicate Valid()
      reads this
    {
      ValidBook(View(), totalCash, totalShares)
    }

    constructor (list: seq<Account>, feeBps: int)
      requires AcceptableAccounts(list, feeBps)
      ensures feeBps >= 0 && View() == OpenedBook(list, feeBps)
      ensures Valid() && this.feeBps == feeBps && bids == asks == [] && usedIds == {} && feePool == 0 && tradeLog == []
      ensures quoteFlow == 0
      ensures |accountIds| == |list|
      ensures forall i :: 0 <= i < |list| ==> accountIds[i] == list[i].id && accounts[list[i].id] == Opened(list[i])
    {
      hide AcceptableAccounts, AccountMap;
      var states: map<string, Account>, ids := map[], [];
      IdsDiffer(list, feeBps);
      EmptyMap();
      assert list[..0] == [];
      for i := 0 to |list|
        invariant |ids| == i
        invariant forall j :: 0 <= j < i ==>
          ids[j] == list[j].id && list[j].id in states && states[list[j].id] == Opened(list[j])
        invariant forall id :: id in states <==> id in ids
        invariant states == AccountMap(list[..i])
      {
        AccountMapGrows(list, i);
        states := states[list[i].id := Opened(list[i])];
        ids := ids + [list[i].id];
      }
      assert list[..|list|] == list && ids == IdsOf(list);
      this.feeBps := feeBps;
      accounts, accountIds, bids, asks, tradeLog, usedIds, feePool, quoteFlow := states, ids, [], [], [], {}, 0, 0;
      totalCash, totalShares := SumCash(ids, states), SumShares(ids, states);
      new;
      hide ValidBook, SumCash, SumShares;
      OpeningBookIsValid(list, View());
    }

    /** The check that is made after every change of an account. */
    predicate ReservationsHold(a: Account) {
      && 0 <= a.reservedCash && 0 <= a.reservedInventory && a.reservedCash <= a.cash
      && a.reservedInventory <= a.inventory
      && a.cash <= MAX_SAFE && a.inventory <= MAX_SAFE
    }

    lemma ReservationCheckIsDead(id: string)
      requires Valid() && id in accounts
      ensures ReservationsHold(accounts[id])
    {
      assert SolventAccount(accounts[id]);
      BalancesAreSafe(View(), totalCash, totalShares, id);
    }

    /** Moves cash, shares, fees and the resting order's reservation. */
    method Settle(aggressor: string, buys: bool, resting: Order, quantity: nat)
      requires CanFill(View(), aggressor, buys, quantity) && resting == Opposite(View(), buys)[0]
      modifies this`accounts, this`feePool
      ensures accounts == FillAccounts(old(View()), aggressor, buys, quantity)
      ensures feePool
        == old(feePool) + FeeFor(resting.price, quantity, feeBps) + FeeFor(resting.price, quantity, feeBps)
      ensures accounts.Keys == old(accounts.Keys)
    {
      hide ReservePerShare, FeeFor;
      var buyer, seller := if buys then aggressor else resting.actor, if buys then resting.actor else aggressor;
      var gross, fee := resting.price * quantity, FeeFor(resting.price, quantity, feeBps);
      var b, s := accounts[buyer], accounts[seller];
      b := b.(cash := b.cash - (gross + fee), inventory := b.inventory + quantity);
      s := s.(cash := s.cash + (gross - fee), inventory := s.inventory - quantity);
      feePool := feePool + fee + fee;
      if buys {
        s := s.(reservedInventory := s.reservedInventory - quantity);
      } else {
        b := b.(reservedCash := b.reservedCash - quantity * ReservePerShare(resting.price, feeBps));
      }
      accounts := accounts[buyer := b][seller := s];
    }

    function Quotes(): Top
      reads this`bids, this`asks
    {
      TopOf(bids, asks)
    }

    /** Takes shares from the resting order at the head of its side, and the order away when it has none left. */
    method Shrink(buys: bool, resting: Order, quantity: nat)
      requires Opposite(View(), buys) != [] && resting == Opposite(View(), buys)[0] && quantity <= resting.remaining
      modifies this`asks, this`bids
      ensures asks == if buys then HeadTaken(old(asks), quantity) else old(asks)
      ensures bids == if buys then old(bids) else HeadTaken(old(bids), quantity)
    {
      if buys {
        asks := if quantity == resting.remaining then asks[1..]
          else [resting.(remaining := resting.remaining - quantity)] + asks[1..];
      } else {
        bids := if quantity == resting.remaining then bids[1..]
          else [resting.(remaining := resting.remaining - quantity)] + bids[1..];
      }
    }

    /** Settles one fill against the head of the other side; trades print at the resting price. */
    method ExecuteFill(aggressor: string, buys: bool, resting: Order, quantity: nat, sequence: nat, tick: nat,
                       index: nat) returns (trade: Trade)
      requires Valid() && CanFill(View(), aggressor, buys, quantity) && resting == Opposite(View(), buys)[0]
      modifies this`accounts, this`bids, this`asks, this`feePool, this`tradeLog, this`quoteFlow
      ensures Valid() && View() == FillBook(old(View()), aggressor, buys, quantity, sequence, tick, index)
      ensures trade == TradeOf(old(View()), aggressor, buys, quantity, sequence, tick, index)
    {
      hide ValidBook, ReservePerShare, FeeFor, FillAccounts, QuoteFlow, TopOf, CostOf, HeadTaken;
      var before := Quotes();
      FillKeepsValid(View(), aggressor, buys, quantity, sequence, tick, index, totalCash, totalShares);
      ghost var next := FillBook(View(), aggressor, buys, quantity, sequence, tick, index);
      var fee := FeeFor(resting.price, quantity, feeBps);
      Settle(aggressor, buys, resting, quantity);
      Shrink(buys, resting, quantity);
      var buyer, seller := if buys then aggressor else resting.actor, if buys then resting.actor else aggressor;
      trade := Trade(sequence, index, tick, resting.price, quantity, buyer, seller, fee, fee, aggressor, resting.id);
      tradeLog := tradeLog + [trade];
      quoteFlow := quoteFlow + QuoteFlow(before, Quotes());
      assert View() == next;
      var buyerHolds := CheckReservations(buyer);
      var sellerHolds := CheckReservations(seller);
    }

    /** A false answer would be fatal; in a valid book there is none. */
    method CheckReservations(id: string) returns (holds: bool)
      requires Valid() && id in accounts
      ensures holds
    {
      ReservationCheckIsDead(id);
      holds := ReservationsHold(accounts[id]);
    }

    ghost predicate CashStopped(e: Event)
      reads this
    {
      && e.price.None? && CannotAffordNext(View(), e.actor) && asks[0].actor != e.actor
    }

    ghost predicate Covered(e: Event, remaining: nat)
      reads this`accounts
    {
      && e.actor in accounts
      && (e.side.Buy? && e.price.Some? && e.price.value >= 0 ==>
        remaining * ReservePerShare(e.price.value, feeBps) <= accounts[e.actor].cash - accounts[e.actor].reservedCash)
      && (e.side.Sell? ==> remaining <= accounts[e.actor].inventory - accounts[e.actor].reservedInventory)
    }

    /** How far a loop has come: everything swept, the rest still covered, and no reason yet to stop. */
    ghost predicate Underway(b0: Book, e: Event, trades: seq<Trade>, remaining: nat, cashLimited: bool)
      reads this
    {
      && Valid() && Complaint(e).None? && remaining <= e.quantity && Covered(e, remaining)
      && AllRemain(Opposite(b0, e.side.Buy?))
      && Swept(b0, View(), e, trades, e.quantity - remaining)
      && (!cashLimited && remaining > 0 ==> Between(b0, View(), e, |trades|, e.quantity - remaining))
      && (cashLimited ==>
          && e.side.Buy? && CashStopped(e) && remaining > 0
          && e.quantity - remaining < Reach(b0.asks, e.actor, e.price, true))
    }

    /** One fill of an incoming order against the acceptable head of the other side. */
    method Fill(ghost b0: Book, e: Event, trades: seq<Trade>, remaining: nat, q: nat) returns (trades': seq<Trade>)
      requires Underway(b0, e, trades, remaining, false) && 1 <= q <= remaining
      requires CanFill(View(), e.actor, e.side.Buy?, q)
      requires Acceptable(Opposite(View(), e.side.Buy?)[0], e.actor, e.price, e.side.Buy?)
      modifies this`accounts, this`bids, this`asks, this`feePool, this`tradeLog, this`quoteFlow
      ensures Valid() && Swept(b0, View(), e, trades', e.quantity - remaining + q)
      ensures View() == FillBook(old(View()), e.actor, e.side.Buy?, q, e.sequence, e.tick, |trades|)
      ensures trades' == trades + [TradeOf(old(View()), e.actor, e.side.Buy?, q, e.sequence, e.tick, |trades|)]
      ensures q == Opposite(old(View()), e.side.Buy?)[0].remaining ==>
        Between(b0, View(), e, |trades'|, e.quantity - remaining + q)
    {
      hide ValidBook, ReservePerShare, FeeFor, Swept, Between, Acceptable, FillBook, Reach, IsIdentifier;
      var head := if e.side.Buy? then asks[0] else bids[0];
      ghost var b := View();
      var trade := ExecuteFill(e.actor, e.side.Buy?, head, q, e.sequence, e.tick, |trades|);
      SweepStep(b0, b, e, trades, e.quantity - remaining, q);
      trades' := trades + [trade];
    }

    lemma BookFacts()
      requires Valid()
      ensures AllRemain(bids) && AllRemain(asks)
      ensures forall i :: 0 <= i < |bids| ==> bids[i].actor in accounts && bids[i].price <= MAX_PRICE_CENTS
      ensures forall i :: 0 <= i < |asks| ==> asks[i].actor in accounts && asks[i].price <= MAX_PRICE_CENTS
      ensures forall id :: id in accounts ==> SolventAccount(accounts[id])
    {
      assert forall i :: 0 <= i < |bids| ==> OrderOk(View(), bids[i], Buy);
      assert forall i :: 0 <= i < |asks| ==> OrderOk(View(), asks[i], Sell);
    }

    /** How many of the wanted shares a buyer can pay for; a limit order has its reservation to spend. */
    method Payable(e: Event, resting: Order, wanted: nat) returns (q: nat, cashLimited: bool)
      requires Valid() && e.side.Buy? && e.actor in accounts && 1 <= wanted <= MAX_QUANTITY && Covered(e, wanted)
      requires e.price.Some? ==> 0 <= e.price.value && resting.price <= e.price.value
      ensures q <= wanted && CostOf(resting.price, q, feeBps) <= accounts[e.actor].cash - accounts[e.actor].reservedCash
      ensures q == PaysFor(View(), e, resting.price, wanted)
      ensures cashLimited <==> q < wanted
      ensures cashLimited ==>
        var free := accounts[e.actor].cash - accounts[e.actor].reservedCash;
        e.price.None? && CostOf(resting.price, 1, feeBps) > free - CostOf(resting.price, q, feeBps)
    {
      hide ValidBook, ReservePerShare, CostOf;
      BookFacts();
      q, cashLimited := wanted, false;
      var available := accounts[e.actor].cash - accounts[e.actor].reservedCash;
      if e.price.None? {
        var affordable := AffordableQuantity(available, resting.price, wanted, feeBps);
        if affordable < wanted {
          cashLimited := true;
          q := affordable;
          CashLimitedFillIsFinal(available, resting.price, affordable, wanted, feeBps);
        }
        AffordableIsLargest(available, resting.price, wanted, feeBps, affordable);
      } else {
        LimitStaysCovered(available, resting.price, e.price.value, wanted, wanted, feeBps);
      }
    }

    /** One turn of the buying loop against an acceptable best ask. */
    method BuyStep(ghost b0: Book, e: Event, trades: seq<Trade>, remaining: nat, wasLimited: bool)
      returns (trades': seq<Trade>, remaining': nat, cashLimited: bool, stop: bool)
      requires Underway(b0, e, trades, remaining, wasLimited) && e.side.Buy? && remaining > 0
      requires asks != [] && Acceptable(asks[0], e.actor, e.price, true)
      modifies this`accounts, this`bids, this`asks, this`feePool, this`tradeLog, this`quoteFlow
      ensures Underway(b0, e, trades', remaining', cashLimited)
      ensures Take(old(View()), e, trades, remaining, wasLimited)
        == if stop then Progress(View(), trades', remaining', cashLimited)
          else Take(View(), e, trades', remaining', cashLimited)
      ensures stop ==> cashLimited && remaining' == remaining
      ensures !stop ==> remaining' < remaining
    {
      hide Take, ValidBook, ReservePerShare, CostOf, Swept, Between, Reach, IsIdentifier, FillBook, PaysFor;
      BookFacts();
      var resting := asks[0];
      ghost var b := View();
      ghost var available := accounts[e.actor].cash - accounts[e.actor].reservedCash;
      var wanted := if remaining <= resting.remaining then remaining else resting.remaining;
      WantedIsCovered(e, remaining, wanted);
      var q, limited := Payable(e, resting, wanted);
      CostOfNothing(resting.price, feeBps);
      TakeTurns(b, e, trades, remaining, wasLimited, wanted, q);
      cashLimited := wasLimited || limited;
      trades', remaining', stop := trades, remaining, q == 0;
      if wasLimited {
        UnaffordableMeansNone(resting.price, q, available, feeBps);
      } else {
        HeadIsWithinReach(b0, View(), e, |trades|, e.quantity - remaining);
      }
      if q > 0 {
        trades' := Fill(b0, e, trades, remaining, q);
        remaining' := remaining - q;
        BuyerAfterFill(b, e.actor, q, e.sequence, e.tick, |trades|);
        if e.price.Some? {
          LimitStaysCovered(available, resting.price, e.price.value, remaining, q, feeBps);
        }
      }
    }

    lemma WantedIsCovered(e: Event, remaining: nat, wanted: nat)
      requires Covered(e, remaining) && wanted <= remaining
      ensures Covered(e, wanted)
    {
      if e.price.Some? && e.price.value >= 0 {
        TimesKeepsOrder(wanted, remaining, ReservePerShare(e.price.value, feeBps));
      }
    }

    /** The buying loop: asks are taken from the front while price, ownership and cash allow. */
    method TakeAsks(e: Event) returns (trades: seq<Trade>, remaining: nat, selfTradeBlocked: bool, cashLimited: bool)
      requires Valid() && e.side.Buy? && Complaint(e).None? && Covered(e, e.quantity)
      modifies this`accounts, this`bids, this`asks, this`feePool, this`tradeLog, this`quoteFlow
      ensures Underway(old(View()), e, trades, remaining, cashLimited) && e.actor in accounts
      ensures Take(old(View()), e, [], e.quantity, false) == Progress(View(), trades, remaining, cashLimited)
      ensures !cashLimited && remaining > 0 ==> e.quantity - remaining == Reach(old(asks), e.actor, e.price, true)
      ensures remaining > 0 ==> (selfTradeBlocked <==> Blocked(View(), e))
    {
      hide Take, ValidBook, ReservePerShare, CostOf, Swept, Between, Reach, IsIdentifier;
      ghost var b0 := View();
      trades, remaining, selfTradeBlocked, cashLimited := [], e.quantity, false, false;
      SweepStarts(b0, e);
      BookFacts();
      var stop := false;
      while remaining > 0 && |asks| > 0 && !stop
        invariant Underway(b0, e, trades, remaining, cashLimited) && !selfTradeBlocked
        invariant Take(b0, e, [], e.quantity, false)
          == if stop then Progress(View(), trades, remaining, cashLimited)
             else Take(View(), e, trades, remaining, cashLimited)
        invariant stop ==> cashLimited
        decreases remaining, if stop then 0 else 1
      {
        var resting := asks[0];
        if e.price.Some? && resting.price > e.price.value { break; }
        if resting.actor == e.actor {
          selfTradeBlocked := true;
          break;
        }
        trades, remaining, cashLimited, stop := BuyStep(b0, e, trades, remaining, cashLimited);
      }
      if !stop { TakeStops(View(), e, trades, remaining, cashLimited); }
      if !cashLimited && remaining > 0 {
        SweepEnds(b0, View(), e, |trades|, e.quantity - remaining);
      }
    }

    /** The selling loop: bids are taken from the front while price and ownership allow. */
    method TakeBids(e: Event) returns (trades: seq<Trade>, remaining: nat, selfTradeBlocked: bool)
      requires Valid() && e.side.Sell? && Complaint(e).None? && Covered(e, e.quantity)
      modifies this`accounts, this`bids, this`asks, this`feePool, this`tradeLog, this`quoteFlow
      ensures Underway(old(View()), e, trades, remaining, false) && e.actor in accounts
      ensures Take(old(View()), e, [], e.quantity, false) == Progress(View(), trades, remaining, false)
      ensures remaining > 0 ==> e.quantity - remaining == Reach(old(bids), e.actor, e.price, false)
      ensures remaining > 0 ==> (selfTradeBlocked <==> Blocked(View(), e))
    {
      hide Take, ValidBook, ReservePerShare, CostOf, Swept, Between, Reach, IsIdentifier, FillBook;
      ghost var b0 := View();
      trades, remaining, selfTradeBlocked := [], e.quantity, false;
      SweepStarts(b0, e);
      BookFacts();
      while remaining > 0 && |bids| > 0
        invariant Underway(b0, e, trades, remaining, false) && !selfTradeBlocked
        invariant Take(b0, e, [], e.quantity, false) == Take(View(), e, trades, remaining, false)
      {
        BookFacts();
        var resting := bids[0];
        if e.price.Some? && resting.price < e.price.value { break; }
        if resting.actor == e.actor {
          selfTradeBlocked := true;
          break;
        }
        var q := if remaining <= resting.remaining then remaining else resting.remaining;
        ghost var b, k := View(), |trades|;
        TakeTurns(b, e, trades, remaining, false, q, q);
        trades := Fill(b0, e, trades, remaining, q);
        SellerAfterFill(b, e.actor, q, e.sequence, e.tick, k);
        remaining := remaining - q;
      }
      TakeStops(View(), e, trades, remaining, false);
      if remaining > 0 {
        SweepEnds(b0, View(), e, |trades|, e.quantity - remaining);
      }
    }

    lemma AdmittedIsCovered(e: Event)
      requires Valid() && Complaint(e).None? && e.actor in accounts && !LacksResources(View(), e)
      ensures Covered(e, e.quantity)
    {
    }

    /** A remainder that is neither blocked nor a market order may rest without crossing. */
    lemma RemainderCanRest(b0: Book, e: Event, trades: seq<Trade>, remaining: nat)
      requires Underway(b0, e, trades, remaining, false) && remaining > 0 && e.price.Some? && !Blocked(View(), e)
      requires e.quantity - remaining == Reach(Opposite(b0, e.side.Buy?), e.actor, e.price, e.side.Buy?)
      requires e.id in usedIds && UnusedInBook(View(), e.id)
      ensures CanRest(View(), RemainderOf(e, remaining), e.side.Buy?)
    {
      hide ReservePerShare, CostOf, ValidBook, IsIdentifier, CarryOut, Balances, FillsOf;
      var orders := Opposite(View(), e.side.Buy?);
      if orders != [] && Acceptable(orders[0], e.actor, e.price, e.side.Buy?) {
        HeadIsWithinReach(b0, View(), e, |trades|, e.quantity - remaining);
        BookFacts();
        assert false;
      }
    }

    /** Puts the remainder into its side and sets its resources aside. */
    method Rest(o: Order, buy: bool)
      requires Valid() && CanRest(View(), o, buy)
      modifies this`accounts, this`bids, this`asks, this`quoteFlow
      ensures Valid() && View() == RestBook(old(View()), o, buy)
    {
      hide ValidBook, ReservePerShare, CanRest, QuoteFlow, TopOf;
      var before := Quotes();
      RestIsKnown(View(), o, buy);
      RestKeepsValid(View(), o, buy, totalCash, totalShares);
      var account := accounts[o.actor];
      if buy {
        bids := bids + [o];
        bids := Sorting.SortBy(BookOrder(true), bids);
        account := account.(reservedCash := account.reservedCash + o.remaining * ReservePerShare(o.price, feeBps));
      } else {
        asks := asks + [o];
        asks := Sorting.SortBy(BookOrder(false), asks);
        account := account.(reservedInventory := account.reservedInventory + o.remaining);
      }
      accounts := accounts[o.actor := account];
      quoteFlow := quoteFlow + QuoteFlow(before, Quotes());
      var holds := CheckReservations(o.actor);
    }

    lemma NewIdIsUnused(b0: Book, e: Event, trades: seq<Trade>, filled: nat, cash: int, shares: int)
      requires ValidBook(b0, cash, shares) && e.id !in b0.used
      requires Swept(b0.(used := b0.used + {e.id}), View(), e, trades, filled)
      ensures UnusedInBook(View(), e.id)
    {
      hide CarryOut, Balances, Reach, UniqueIds, Prioritised, Uncrossed, ReservationsExact, Conserved, AccountsOk,
           ReservePerShare;
      assert forall i :: 0 <= i < |b0.bids| ==> OrderOk(b0, b0.bids[i], Buy) && b0.bids[i].id != e.id;
      assert forall i :: 0 <= i < |b0.asks| ==> OrderOk(b0, b0.asks[i], Sell) && b0.asks[i].id != e.id;
      ConsumedKeepsIds(b0.bids, filled, e.id);
      ConsumedKeepsIds(b0.asks, filled, e.id);
    }

    /** Handles an incoming order event. */
    method Submit(e: Event) returns (out: Outcome, ghost mid: Book)
      requires Valid()
      modifies this`accounts, this`bids, this`asks, this`feePool, this`tradeLog, this`usedIds, this`quoteFlow
      ensures Valid()
      ensures Refusal(old(View()), e).Some? ==> View() == old(View()) && out == Refusal(old(View()), e).value
      ensures Refusal(old(View()), e).None? ==> Handled(old(View()), mid, View(), e, out)
      ensures Submission(View(), out) == Submitted(old(View()), e)
    {
      hide Take, ValidBook, ReservePerShare, Swept, Between, Reach, IsIdentifier, Covered;
      mid := View();
      var complaint := Complaint(e);
      if complaint.Some? {
        var early := complaint.value.InvalidId? || complaint.value.InvalidActor? || complaint.value.InvalidQuantity?;
        return Rejected(complaint.value, if early then 0 else e.quantity), mid;
      }
      if e.actor !in accounts { return Rejected(UnknownActor, e.quantity), mid; }
      SortSides();
      if e.id in usedIds { return Rejected(DuplicateOrderId, e.quantity), mid; }
      var account := accounts[e.actor];
      if e.side.Buy? {
        if e.price.Some? && e.quantity * ReservePerShare(e.price.value, feeBps) > account.cash - account.reservedCash {
          return Rejected(InsufficientCash, e.quantity), mid;
        }
      } else if e.quantity > account.inventory - account.reservedInventory {
        return Rejected(InsufficientInventory, e.quantity), mid;
      }
      out, mid := Admit(e);
    }

    method SortSides()
      requires Valid()
      modifies this`bids, this`asks
      ensures View() == old(View())
    {
      assert Prioritised(View());
      Sorting.OrderedStays(BookOrder(true), bids);
      Sorting.OrderedStays(BookOrder(false), asks);
      bids := Sorting.SortBy(BookOrder(true), bids);
      asks := Sorting.SortBy(BookOrder(false), asks);
    }

    lemma UsedMayGrow(b: Book, id: string, cash: int, shares: int)
      requires ValidBook(b, cash, shares)
      ensures ValidBook(b.(used := b.used + {id}), cash, shares)
    {
      var after := b.(used := b.used + {id});
      hide UniqueIds, Prioritised, Uncrossed, ReservationsExact, Conserved;
      assert forall i :: 0 <= i < |b.bids| ==> OrderOk(b, b.bids[i], Buy) && OrderOk(after, b.bids[i], Buy);
      assert forall i :: 0 <= i < |b.asks| ==> OrderOk(b, b.asks[i], Sell) && OrderOk(after, b.asks[i], Sell);
      SameButUsed(b, after, cash, shares);
    }

    lemma SameButUsed(b: Book, after: Book, cash: int, shares: int)
      requires after == b.(used := after.used) && ValidBook(b, cash, shares) && OrdersOk(after)
      ensures ValidBook(after, cash, shares)
    {
    }

    /** The sweep and what follows it, for an event that passed every check. */
    method Admit(e: Event) returns (out: Outcome, ghost mid: Book)
      requires Valid() && Complaint(e).None? && e.actor in accounts && e.id !in usedIds && !LacksResources(View(), e)
      modifies this`accounts, this`bids, this`asks, this`feePool, this`tradeLog, this`usedIds, this`quoteFlow
      ensures Valid() && Handled(old(View()), mid, View(), e, out)
      ensures Submission(View(), out)
        == Settled(Take(old(View()).(used := old(usedIds) + {e.id}), e, [], e.quantity, false), e)
    {
      hide Take, ValidBook, ReservePerShare, Swept, Between, Reach, IsIdentifier, Covered, Blocked, CanRest, RestBook,
           LacksResources;
      ghost var b0 := View();
      AdmittedIsCovered(e);
      UsedMayGrow(b0, e.id, totalCash, totalShares);
      usedIds := usedIds + {e.id};
      ghost var b1 := View();
      var trades, remaining, selfTradeBlocked, cashLimited := [], 0, false, false;
      if e.side.Buy? {
        trades, remaining, selfTradeBlocked, cashLimited := TakeAsks(e);
      } else {
        trades, remaining, selfTradeBlocked := TakeBids(e);
      }
      mid := View();
      NewIdIsUnused(b0, e, trades, e.quantity - remaining, totalCash, totalShares);
      var restingQuantity, reason := 0, None;
      if remaining > 0 {
        if selfTradeBlocked {
          reason := Some(SelfTradePrevented);
        } else if e.price.None? {
          reason := Some(if cashLimited then InsufficientCash else MarketRemainderCancelled);
        } else {
          RemainderCanRest(b1, e, trades, remaining);
          Rest(RemainderOf(e, remaining), e.side.Buy?);
          restingQuantity := remaining;
        }
      }
      out := Outcome(e.quantity - remaining, remaining - restingQuantity, restingQuantity, trades, reason);
    }

    /** The resting order with this identifier: its side and place. */
    method FindById(id: string) returns (found: Option<(bool, nat)>)
      ensures found.Some? ==>
        found.value.1 < |SideOf(View(), found.value.0)| && SideOf(View(), found.value.0)[found.value.1].id == id
      ensures found.None? ==> UnusedInBook(View(), id)
      ensures found == (if PlaceOf(bids, id) < |bids| then Some((true, PlaceOf(bids, id)))
                        else if PlaceOf(asks, id) < |asks| then Some((false, PlaceOf(asks, id))) else None)
    {
      PlaceFinds(bids, id);
      PlaceFinds(asks, id);
      for i := 0 to |bids|
        invariant forall j :: 0 <= j < i ==> bids[j].id != id
      {
        if bids[i].id == id { return Some((true, i)); }
      }
      for i := 0 to |asks|
        invariant forall j :: 0 <= j < i ==> asks[j].id != id
      {
        if asks[i].id == id { return Some((false, i)); }
      }
      return None;
    }

    /** Takes the order at this place away and gives its reservation back. */
    method TakeAway(buy: bool, i: nat)
      requires Valid() && i < |SideOf(View(), buy)|
      modifies this`accounts, this`bids, this`asks, this`quoteFlow
      ensures SideOf(old(View()), buy)[i].actor in old(accounts)
      ensures Valid() && View() == CancelBook(old(View()), buy, i)
    {
      hide ValidBook, ReservePerShare, QuoteFlow, TopOf;
      var before := Quotes();
      CancelKeepsValid(View(), buy, i, totalCash, totalShares);
      var order := if buy then bids[i] else asks[i];
      var account := accounts[order.actor];
      if buy {
        bids := bids[..i] + bids[i + 1..];
        var freed := order.remaining * ReservePerShare(order.price, feeBps);
        account := account.(reservedCash := account.reservedCash - freed);
      } else {
        asks := asks[..i] + asks[i + 1..];
        account := account.(reservedInventory := account.reservedInventory - order.remaining);
      }
      accounts := accounts[order.actor := account];
      quoteFlow := quoteFlow + QuoteFlow(before, Quotes());
      var holds := CheckReservations(order.actor);
    }

    /** Takes the caller's own resting order away. */
    method Cancel(actor: string, id: string) returns (released: nat, ghost at: Option<(bool, nat)>)
      requires Valid()
      modifies this`accounts, this`bids, this`asks, this`quoteFlow
      ensures Valid() && View() == AfterCancel(old(View()), actor, id)
      ensures at.Some? ==>
        && var (buy, i) := at.value;
           && OwnOrder(old(View()), buy, i, actor, id) && View() == CancelBook(old(View()), buy, i)
           && released == SideOf(old(View()), buy)[i].remaining
      ensures at.None? ==> View() == old(View()) && released == 0
      ensures at.None? && IsIdentifier(actor) && IsIdentifier(id) ==>
        forall buy, i :: !OwnOrder(old(View()), buy, i, actor, id)
    {
      hide ValidBook, CancelBook, IsIdentifier, UniqueIds;
      released, at := 0, None;
      if !IsIdentifier(actor) || !IsIdentifier(id) { return; }
      var found := FindById(id);
      if found.None? { return; }
      var (buy, i) := found.value;
      var order := if buy then bids[i] else asks[i];
      assert UniqueIds(View()) by { IdsAreUnique(View(), totalCash, totalShares); }
      if order.actor != actor {
        OnlyOneOrder(View(), buy, i, actor, id);
        return;
      }
      at := found;
      TakeAway(buy, i);
      released := order.remaining;
    }
  }

  lemma IdsAreUnique(b: Book, cash: int, shares: int)
    requires ValidBook(b, cash, shares)
    ensures UniqueIds(b)
  {
  }

  /** The order at place `i` of a side is `actor`'s and is called `id`. */
  ghost predicate OwnOrder(b: Book, buy: bool, i: nat, actor: string, id: string) {
    i < |SideOf(b, buy)| && SideOf(b, buy)[i].actor == actor && SideOf(b, buy)[i].id == id && actor in b.accounts
  }

  lemma OnlyOneOrder(b: Book, buy: bool, i: nat, actor: string, id: string)
    requires UniqueIds(b) && i < |SideOf(b, buy)| && SideOf(b, buy)[i].id == id && SideOf(b, buy)[i].actor != actor
    ensures forall side, j :: !OwnOrder(b, side, j, actor, id)
  {
  }

  lemma RestIsKnown(b: Book, o: Order, buy: bool)
    requires CanRest(b, o, buy)
    ensures o.actor in b.accounts
  {
  }

  ghost predicate UnusedInBook(b: Book, id: string) {
    && (forall i :: 0 <= i < |b.bids| ==> b.bids[i].id != id)
    && (forall i :: 0 <= i < |b.asks| ==> b.asks[i].id != id)
  }
}
