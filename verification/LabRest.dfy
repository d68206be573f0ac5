/** Putting an order to rest and taking one away: each keeps the invariant. */
module LabRest {
  import opened LabMoney
  import opened LabState
  import opened LabFlow
  import Sorting

  function SideOf(b: Book, buy: bool): seq<Order> { if buy then b.bids else b.asks }

  function Reserved(a: Account, o: Order, buy: bool, feeBps: nat): Account {
    if buy then a.(reservedCash := a.reservedCash + o.remaining * ReservePerShare(o.price, feeBps))
    else a.(reservedInventory := a.reservedInventory + o.remaining)
  }

  function Released(a: Account, o: Order, buy: bool, feeBps: nat): Account {
    if buy then a.(reservedCash := a.reservedCash - o.remaining * ReservePerShare(o.price, feeBps))
    else a.(reservedInventory := a.reservedInventory - o.remaining)
  }

  function WithSide(b: Book, buy: bool, side: seq<Order>, actor: string, a: Account): Book {
    Flowed(b, b.(bids := if buy then side else b.bids, asks := if buy then b.asks else side,
                 accounts := b.accounts[actor := a]))
  }

  predicate CanRest(b: Book, o: Order, buy: bool) {
    && o.side == (if buy then Buy else Sell) && o.actor in b.accounts && o.id in b.used
    && 1 <= o.remaining <= MAX_QUANTITY && MIN_PRICE_CENTS <= o.price <= MAX_PRICE_CENTS
    && (forall i :: 0 <= i < |b.bids| ==> b.bids[i].id != o.id)
    && (forall i :: 0 <= i < |b.asks| ==> b.asks[i].id != o.id)
    && (buy ==>
        o.remaining * ReservePerShare(o.price, b.feeBps) <= b.accounts[o.actor].cash - b.accounts[o.actor].reservedCash)
    && (!buy ==> o.remaining <= b.accounts[o.actor].inventory - b.accounts[o.actor].reservedInventory)
    && var opposite := SideOf(b, !buy);
       opposite == [] || (if buy then o.price < opposite[0].price else opposite[0].price < o.price)
  }

  function RestBook(b: Book, o: Order, buy: bool): Book
    requires o.actor in b.accounts
  {
    WithSide(b, buy, Sorting.SortBy(BookOrder(buy), SideOf(b, buy) + [o]), o.actor,
             Reserved(b.accounts[o.actor], o, buy, b.feeBps))
  }

  function Without(s: seq<Order>, i: nat): seq<Order>
    requires i < |s|
  {
    s[..i] + s[i + 1..]
  }

  function CancelBook(b: Book, buy: bool, i: nat): Book
    requires i < |SideOf(b, buy)| && SideOf(b, buy)[i].actor in b.accounts
  {
    var o := SideOf(b, buy)[i];
    WithSide(b, buy, Without(SideOf(b, buy), i), o.actor, Released(b.accounts[o.actor], o, buy, b.feeBps))
  }

  /** Sorting in the new order leaves a prioritised side that holds it and nothing else new. */
  lemma SortedSide(side: seq<Order>, o: Order, buy: bool) returns (after: seq<Order>)
    requires forall i, j :: 0 <= i < j < |side| ==> side[i].id != side[j].id
    requires forall i :: 0 <= i < |side| ==> side[i].id != o.id
    ensures after == Sorting.SortBy(BookOrder(buy), side + [o])
    ensures Sorting.Ordered(BookOrder(buy), after)
    ensures forall x :: x in after <==> x in side || x == o
    ensures forall i, j :: 0 <= i < j < |after| ==> after[i].id != after[j].id
  {
    var all := side + [o];
    after := Sorting.SortBy(BookOrder(buy), all);
    BookOrderIsTotal(buy);
    Sorting.SortIsOrderedPermutation(BookOrder(buy), all);
    Sorting.PermutationKeepsMembers(all, after);
    hide Ahead;
    assert forall i, j :: 0 <= i < j < |all| ==> all[i].id != all[j].id;
    Sorting.PermutationStaysDistinct(all, after);
    forall i, j | 0 <= i < j < |after|
      ensures after[i].id != after[j].id
    {
      assert after[i] in all && after[j] in all && after[i] != after[j];
    }
  }

  lemma RestKeepsSides(b: Book, o: Order, buy: bool)
    requires CanRest(b, o, buy) && OrdersOk(b) && UniqueIds(b) && Prioritised(b) && Uncrossed(b)
    ensures var after := RestBook(b, o, buy);
      OrdersOk(after) && UniqueIds(after) && Prioritised(after) && Uncrossed(after)
  {
    hide TopOf, QuoteFlow, ReservePerShare, Ahead;
    var side := SortedSide(SideOf(b, buy), o, buy);
    var after := RestBook(b, o, buy);
    OppositeIsBeyond(b, o, buy);
    SidesFromMembers(b, o, buy, side, after);
  }

  lemma SidesFromMembers(b: Book, o: Order, buy: bool, side: seq<Order>, after: Book)
    requires OrdersOk(b) && UniqueIds(b) && Prioritised(b) && Uncrossed(b)
    requires after.used == b.used && after.accounts.Keys == b.accounts.Keys
    requires after.bids == (if buy then side else b.bids) && after.asks == (if buy then b.asks else side)
    requires forall x :: x in side <==> x in SideOf(b, buy) || x == o
    requires Sorting.Ordered(BookOrder(buy), side) && forall i, j :: 0 <= i < j < |side| ==> side[i].id != side[j].id
    requires OrderOk(after, o, if buy then Buy else Sell)
    requires Apart(o, SideOf(b, !buy), buy)
    ensures OrdersOk(after) && UniqueIds(after) && Prioritised(after) && Uncrossed(after)
  {
    hide Ahead;
    var was, other := SideOf(b, buy), SideOf(b, !buy);
    forall i | 0 <= i < |side|
      ensures OrderOk(after, side[i], if buy then Buy else Sell) && Apart(side[i], other, buy)
    {
      assert side[i] in side;
      if side[i] != o {
        var k :| 0 <= k < |was| && was[k] == side[i];
        assert OrderOk(b, was[k], if buy then Buy else Sell);
        assert Apart(was[k], other, buy);
      }
    }
  }

  /** `o` differs from every order of the other side and does not cross it. */
  predicate Apart(o: Order, other: seq<Order>, buy: bool) {
    forall i :: 0 <= i < |other| ==>
      other[i].id != o.id && if buy then o.price < other[i].price else other[i].price < o.price
  }

  /** The opposite side begins beyond the price, so all of it lies beyond. */
  lemma OppositeIsBeyond(b: Book, o: Order, buy: bool)
    requires Prioritised(b) && CanRest(b, o, buy)
    ensures Apart(o, SideOf(b, !buy), buy)
  {
    hide ReservePerShare;
    var opposite := SideOf(b, !buy);
    forall i | 0 <= i < |opposite|
      ensures if buy then o.price < opposite[i].price else opposite[i].price < o.price
    {
      assert i > 0 ==> BookOrder(!buy)(opposite[0], opposite[i]);
    }
  }

  lemma RestReserves(b: Book, o: Order, buy: bool)
    requires o.actor in b.accounts && ReservationsExact(b)
    ensures ReservationsExact(RestBook(b, o, buy))
  {
    hide TopOf, QuoteFlow, ReservePerShare;
    var after, all := RestBook(b, o, buy), SideOf(b, buy) + [o];
    forall id | id in after.accounts
      ensures after.accounts[id].reservedCash == ReservedCash(after.bids, id, b.feeBps)
      ensures after.accounts[id].reservedInventory == ReservedShares(after.asks, id)
    {
      ReservationIgnoresOrder(BookOrder(buy), all, id, b.feeBps);
      ReservedCashConcat(SideOf(b, buy), [o], id, b.feeBps);
      ReservedSharesConcat(SideOf(b, buy), [o], id);
    }
  }

  /** Only reservations move, so the totals stand still. */
  lemma ReservationKeepsTotals(b: Book, actor: string, a: Account, cash: int, shares: int, after: Book)
    requires AccountsOk(b) && Conserved(b, cash, shares) && actor in b.accounts
    requires a.cash == b.accounts[actor].cash && a.inventory == b.accounts[actor].inventory && a.id == actor
    requires SolventAccount(a)
    requires after == b.(accounts := b.accounts[actor := a], bids := after.bids, asks := after.asks, flow := after.flow)
    ensures AccountsOk(after) && Conserved(after, cash, shares)
  {
    SumsFollowOneAccount(b.ids, b.accounts, actor, a);
  }

  lemma RestKeepsValid(b: Book, o: Order, buy: bool, cash: int, shares: int)
    requires CanRest(b, o, buy) && ValidBook(b, cash, shares)
    ensures ValidBook(RestBook(b, o, buy), cash, shares)
  {
    hide TopOf, QuoteFlow, OrdersOk, UniqueIds, Prioritised, Uncrossed, ReservationsExact, Conserved, ReservePerShare;
    RestKeepsSides(b, o, buy);
    RestReserves(b, o, buy);
    assert SolventAccount(b.accounts[o.actor]);
    ReservationKeepsTotals(b, o.actor, Reserved(b.accounts[o.actor], o, buy, b.feeBps), cash, shares,
                           RestBook(b, o, buy));
  }

  lemma WithoutReservation(s: seq<Order>, i: nat, actor: string, feeBps: nat)
    requires i < |s|
    ensures ReservedCash(s, actor, feeBps) == ReservedCash(Without(s, i), actor, feeBps)
      + if s[i].actor == actor then s[i].remaining * ReservePerShare(s[i].price, feeBps) else 0
    ensures ReservedShares(s, actor)
      == ReservedShares(Without(s, i), actor) + if s[i].actor == actor then s[i].remaining else 0
  {
    hide ReservePerShare;
    assert s == s[..i] + s[i..];
    ReservedCashConcat(s[..i], s[i..], actor, feeBps);
    ReservedCashConcat(s[..i], s[i + 1..], actor, feeBps);
    ReservedSharesConcat(s[..i], s[i..], actor);
    ReservedSharesConcat(s[..i], s[i + 1..], actor);
  }

  lemma CancelReleases(b: Book, buy: bool, i: nat)
    requires i < |SideOf(b, buy)| && SideOf(b, buy)[i].actor in b.accounts && ReservationsExact(b)
    ensures ReservationsExact(CancelBook(b, buy, i))
  {
    hide TopOf, QuoteFlow, ReservePerShare, Without;
    var after := CancelBook(b, buy, i);
    forall id | id in after.accounts
      ensures after.accounts[id].reservedCash == ReservedCash(after.bids, id, b.feeBps)
      ensures after.accounts[id].reservedInventory == ReservedShares(after.asks, id)
    {
      WithoutReservation(SideOf(b, buy), i, id, b.feeBps);
    }
  }

  lemma CancelKeepsSides(b: Book, buy: bool, i: nat)
    requires i < |SideOf(b, buy)| && SideOf(b, buy)[i].actor in b.accounts
    requires OrdersOk(b) && UniqueIds(b) && Prioritised(b) && Uncrossed(b)
    ensures var after := CancelBook(b, buy, i);
      OrdersOk(after) && UniqueIds(after) && Prioritised(after) && Uncrossed(after)
  {
    hide TopOf, QuoteFlow, ReservePerShare, Ahead, Uncrossed, OrderOk, Without;
    var after, s := CancelBook(b, buy, i), SideOf(b, buy);
    WithoutKeepsSide(s, i, buy);
    WithoutIsPart(s, i);
    SidesFromFewer(b, buy, Without(s, i), after);
  }

  lemma WithoutIsPart(s: seq<Order>, i: nat)
    requires i < |s|
    ensures forall k :: 0 <= k < |Without(s, i)| ==> Without(s, i)[k] in s
  {
    var t := Without(s, i);
    assert forall k :: 0 <= k < |t| ==> t[k] == s[if k < i then k else k + 1];
  }

  lemma SidesFromFewer(b: Book, buy: bool, side: seq<Order>, after: Book)
    requires OrdersOk(b) && UniqueIds(b) && Prioritised(b) && Uncrossed(b)
    requires after.used == b.used && after.accounts.Keys == b.accounts.Keys
    requires after.bids == (if buy then side else b.bids) && after.asks == (if buy then b.asks else side)
    requires forall k :: 0 <= k < |side| ==> side[k] in SideOf(b, buy)
    requires Sorting.Ordered(BookOrder(buy), side) && forall i, j :: 0 <= i < j < |side| ==> side[i].id != side[j].id
    ensures OrdersOk(after) && UniqueIds(after) && Prioritised(after) && Uncrossed(after)
  {
    hide Ahead;
    var was, other := SideOf(b, buy), SideOf(b, !buy);
    forall i | 0 <= i < |side|
      ensures OrderOk(after, side[i], if buy then Buy else Sell) && Apart(side[i], other, buy)
    {
      var k :| 0 <= k < |was| && was[k] == side[i];
      assert OrderOk(b, was[k], if buy then Buy else Sell);
      assert Apart(was[k], other, buy);
    }
  }

  lemma WithoutKeepsSide(s: seq<Order>, i: nat, buy: bool)
    requires i < |s| && Sorting.Ordered(BookOrder(buy), s) && forall j, k :: 0 <= j < k < |s| ==> s[j].id != s[k].id
    ensures Sorting.Ordered(BookOrder(buy), Without(s, i))
    ensures forall j, k :: 0 <= j < k < |Without(s, i)| ==> Without(s, i)[j].id != Without(s, i)[k].id
  {
    hide Ahead;
    var t := Without(s, i);
    forall j, k | 0 <= j < k < |t|
      ensures BookOrder(buy)(t[j], t[k]) && t[j].id != t[k].id
    {
      var j', k' := if j < i then j else j + 1, if k < i then k else k + 1;
      assert t[j] == s[j'] && t[k] == s[k'] && BookOrder(buy)(s[j'], s[k']);
    }
  }

  lemma CancelStaysSolvent(b: Book, buy: bool, i: nat)
    requires i < |SideOf(b, buy)| && AccountsOk(b) && ReservationsExact(b) && SideOf(b, buy)[i].actor in b.accounts
    ensures var o := SideOf(b, buy)[i]; SolventAccount(Released(b.accounts[o.actor], o, buy, b.feeBps))
  {
    hide ReservePerShare, Without;
    var o := SideOf(b, buy)[i];
    WithoutReservation(SideOf(b, buy), i, o.actor, b.feeBps);
    assert SolventAccount(b.accounts[o.actor]);
  }

  lemma CancelKeepsValid(b: Book, buy: bool, i: nat, cash: int, shares: int)
    requires i < |SideOf(b, buy)| && ValidBook(b, cash, shares)
    ensures SideOf(b, buy)[i].actor in b.accounts && ValidBook(CancelBook(b, buy, i), cash, shares)
  {
    hide TopOf, QuoteFlow, UniqueIds, Prioritised, Uncrossed, Conserved, ReservePerShare, ReservationsExact, Without;
    var o := SideOf(b, buy)[i];
    assert OrderOk(b, o, if buy then Buy else Sell);
    CancelKeepsSides(b, buy, i);
    CancelReleases(b, buy, i);
    CancelStaysSolvent(b, buy, i);
    ReservationKeepsTotals(b, o.actor, Released(b.accounts[o.actor], o, buy, b.feeBps), cash, shares,
                           CancelBook(b, buy, i));
  }
}
