/** How many orders rest, and which: an order adds at most one, a cancel takes away exactly one. */
module LabCensus {
  import opened LabState
  import opened LabFill
  import opened LabRest
  import opened LabSweep
  import opened LabRun
  import opened LabSubmit
  import opened LabBook
  import Sorting

  function Census(b: Book): nat { |b.bids| + |b.asks| }

  /** Every resting order has an identifier by which it can be cancelled. */
  ghost predicate AllTagged(orders: seq<Order>) {
    forall i :: 0 <= i < |orders| ==> IsIdentifier(orders[i].id)
  }

  ghost predicate Tagged(b: Book) { AllTagged(b.bids) && AllTagged(b.asks) }

  lemma {:induction false} ConsumedShrinks(orders: seq<Order>, n: nat)
    ensures |Consumed(orders, n)| <= |orders| && (AllTagged(orders) ==> AllTagged(Consumed(orders, n)))
  {
    hide IsIdentifier;
    if n > 0 && orders != [] {
      if n >= orders[0].remaining {
        ConsumedShrinks(orders[1..], n - orders[0].remaining);
      } else {
        assert forall i :: 1 <= i < |orders| ==>
          ([orders[0].(remaining := orders[0].remaining - n)] + orders[1..])[i] == orders[i];
      }
    }
  }

  lemma SortedStaysTagged(buy: bool, orders: seq<Order>)
    requires AllTagged(orders)
    ensures AllTagged(Sorting.SortBy(BookOrder(buy), orders)) && |Sorting.SortBy(BookOrder(buy), orders)| == |orders|
  {
    hide IsIdentifier, BookOrder;
    var after := Sorting.SortBy(BookOrder(buy), orders);
    BookOrderIsTotal(buy);
    Sorting.SortIsOrderedPermutation(BookOrder(buy), orders);
    Sorting.PermutationKeepsMembers(orders, after);
    forall i | 0 <= i < |after|
      ensures IsIdentifier(after[i].id)
    {
      assert after[i] in after;
      var j :| 0 <= j < |orders| && orders[j] == after[i];
    }
  }

  /** What a sweep does to the census. */
  lemma SweptCensus(b0: Book, mid: Book, e: Event, trades: seq<Trade>, filled: nat)
    requires Swept(b0, mid, e, trades, filled) && Tagged(b0)
    ensures Census(mid) <= Census(b0) && Tagged(mid) && mid.accounts.Keys == b0.accounts.Keys
  {
    hide AllTagged, CarryOut, Reach;
    ConsumedShrinks(Opposite(b0, e.side.Buy?), filled);
  }

  lemma RestCensus(b: Book, o: Order, buy: bool)
    requires Tagged(b) && IsIdentifier(o.id) && o.actor in b.accounts
    ensures Census(RestBook(b, o, buy)) == Census(b) + 1 && Tagged(RestBook(b, o, buy))
    ensures RestBook(b, o, buy).accounts.Keys == b.accounts.Keys
  {
    hide IsIdentifier, Reserved;
    SortedStaysTagged(buy, SideOf(b, buy) + [o]);
  }

  lemma HandledCensus(b0: Book, mid: Book, b: Book, e: Event, out: Outcome)
    requires Handled(b0, mid, b, e, out) && Tagged(b0)
    ensures Census(b) <= Census(b0) + 1 && Tagged(b) && b.accounts.Keys == b0.accounts.Keys
  {
    hide Tagged, Swept, Reach, CannotAffordNext, RestBook;
    var b1 := b0.(used := b0.used + {e.id});
    UsedIsNoPart(b0, b1);
    SweptCensus(b1, mid, e, out.trades, out.filled);
    if !(e.quantity - out.filled == 0 || Blocked(mid, e) || e.price.None?) {
      RestCensus(mid, RemainderOf(e, e.quantity - out.filled), e.side.Buy?);
    }
  }

  lemma UsedIsNoPart(b0: Book, b1: Book)
    requires b1 == b0.(used := b1.used)
    ensures Tagged(b1) <==> Tagged(b0)
    ensures Census(b1) == Census(b0) && b1.accounts.Keys == b0.accounts.Keys
  {
  }

  lemma CancelCensus(b: Book, buy: bool, i: nat)
    requires Tagged(b) && i < |SideOf(b, buy)| && SideOf(b, buy)[i].actor in b.accounts
    ensures Census(CancelBook(b, buy, i)) == Census(b) - 1 && Tagged(CancelBook(b, buy, i))
    ensures CancelBook(b, buy, i).accounts.Keys == b.accounts.Keys
  {
    hide IsIdentifier, Released, AllTagged, Without;
    WithoutStaysTagged(SideOf(b, buy), i);
  }

  lemma WithoutStaysTagged(orders: seq<Order>, i: nat)
    requires AllTagged(orders) && i < |orders|
    ensures AllTagged(Without(orders, i)) && |Without(orders, i)| == |orders| - 1
  {
    hide IsIdentifier;
    var after := Without(orders, i);
    assert forall k :: 0 <= k < |after| ==> after[k] == orders[if k < i then k else k + 1];
  }

  ghost predicate Rests(b: Book, actor: string, id: string) {
    exists buy, i: nat :: OwnOrder(b, buy, i, actor, id)
  }

  /** A cancel leaves the caller's other orders where they rest. */
  lemma CancelKeepsOthers(b: Book, buy: bool, i: nat, actor: string, id: string, other: string)
    requires OwnOrder(b, buy, i, actor, id) && Rests(b, actor, other) && other != id
    ensures Rests(CancelBook(b, buy, i), actor, other)
  {
    var side, j: nat :| OwnOrder(b, side, j, actor, other);
    var after := CancelBook(b, buy, i);
    assert OwnOrder(after, side, if side == buy && j > i then j - 1 else j, actor, other);
  }

  /** The orders that `actor` has resting, bids before asks. */
  function OrdersOf(orders: seq<Order>, actor: string): seq<Order> {
    if orders == [] then []
    else
      OrdersOf(orders[..|orders| - 1], actor)
      + if orders[|orders| - 1].actor == actor then [orders[|orders| - 1]] else []
  }

  /** Orders of `actor` from this list, no identifier twice. */
  ghost predicate Owned(own: seq<Order>, orders: seq<Order>, actor: string) {
    && (forall k :: 0 <= k < |own| ==> own[k].actor == actor && Listed(own[k], orders))
    && (forall j, k :: 0 <= j < k < |own| ==> own[j].id != own[k].id)
  }

  ghost predicate Listed(o: Order, orders: seq<Order>) { exists i :: 0 <= i < |orders| && orders[i] == o }

  lemma {:induction false} OrdersOfAre(orders: seq<Order>, actor: string)
    requires forall i, j :: 0 <= i < j < |orders| ==> orders[i].id != orders[j].id
    ensures Owned(OrdersOf(orders, actor), orders, actor)
  {
    if orders != [] {
      var n := |orders| - 1;
      OrdersOfAre(orders[..n], actor);
      var before := OrdersOf(orders[..n], actor);
      assert Owned(before, orders[..n], actor);
      forall k | 0 <= k < |before|
        ensures Listed(before[k], orders) && before[k].id != orders[n].id
      {
        assert Listed(before[k], orders[..n]);
        var i :| 0 <= i < n && orders[..n][i] == before[k];
        assert orders[i] == before[k];
      }
      assert Listed(orders[n], orders);
    }
  }

  /** Each of them rests, and each has its own identifier. */
  lemma OwnOrdersRest(b: Book, actor: string, own: seq<Order>)
    requires UniqueIds(b) && actor in b.accounts && own == OrdersOf(b.bids + b.asks, actor)
    ensures forall k :: 0 <= k < |own| ==> Rests(b, actor, own[k].id)
    ensures forall j, k :: 0 <= j < k < |own| ==> own[j].id != own[k].id
  {
    var all := b.bids + b.asks;
    OrdersOfAre(all, actor);
    assert Owned(own, all, actor);
    forall k | 0 <= k < |own|
      ensures Rests(b, actor, own[k].id)
    {
      assert Listed(own[k], all);
      var i :| 0 <= i < |all| && all[i] == own[k];
      assert OwnOrder(b, i < |b.bids|, if i < |b.bids| then i else i - |b.bids|, actor, own[k].id);
    }
  }

  lemma RestingIsTagged(b: Book, actor: string, id: string)
    requires Tagged(b) && Rests(b, actor, id)
    ensures IsIdentifier(id)
  {
    var buy, i: nat :| OwnOrder(b, buy, i, actor, id);
  }
}
