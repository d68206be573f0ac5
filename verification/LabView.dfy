/** The aggregated view of one side of the book. */
module LabView {
  import opened LabState
  import opened LabFlow
  import Sorting

  datatype Level = Level(price: nat, quantity: nat)

  /** All that rests at one price. */
  function DepthAt(orders: seq<Order>, price: nat): nat {
    if orders == [] then 0
    else
      DepthAt(orders[..|orders| - 1], price)
      + if orders[|orders| - 1].price == price then orders[|orders| - 1].remaining else 0
  }

  predicate Worse(p: nat, than: nat, buy: bool) { if buy then p < than else p > than }

  ghost predicate Falling(levels: seq<Level>, buy: bool) {
    forall i, j :: 0 <= i < j < |levels| ==> Worse(levels[j].price, levels[i].price, buy)
  }

  ghost predicate Listed(levels: seq<Level>, price: nat) {
    exists k :: 0 <= k < |levels| && levels[k].price == price
  }

  /** Each level shows everything at its price, best price first, and no better price is left out. */
  ghost predicate Summarises(levels: seq<Level>, orders: seq<Order>, buy: bool) {
    && Falling(levels, buy)
    && (forall k :: 0 <= k < |levels| ==>
        && levels[k].quantity == DepthAt(orders, levels[k].price)
        && exists i :: 0 <= i < |orders| && orders[i].price == levels[k].price)
    && (forall i :: 0 <= i < |orders| ==>
        Listed(levels, orders[i].price) || (levels != [] && Worse(orders[i].price, levels[|levels| - 1].price, buy)))
  }

  lemma DepthAtNext(orders: seq<Order>, i: nat, price: nat)
    requires i < |orders|
    ensures DepthAt(orders[..i + 1], price)
      == DepthAt(orders[..i], price) + if orders[i].price == price then orders[i].remaining else 0
  {
    assert orders[..i + 1][..i] == orders[..i];
  }

  lemma {:induction false} DepthAtAbsent(orders: seq<Order>, price: nat)
    requires forall i :: 0 <= i < |orders| ==> orders[i].price != price
    ensures DepthAt(orders, price) == 0
  {
    if orders != [] { DepthAtAbsent(orders[..|orders| - 1], price); }
  }

  lemma {:induction false} DepthAtTail(orders: seq<Order>, n: nat, price: nat)
    requires n <= |orders| && forall i :: n <= i < |orders| ==> orders[i].price != price
    ensures DepthAt(orders, price) == DepthAt(orders[..n], price)
    decreases |orders| - n
  {
    if n == |orders| {
      assert orders[..n] == orders;
    } else {
      DepthAtTail(orders, n + 1, price);
      assert orders[..n + 1][..n] == orders[..n];
    }
  }

  /** So far: the levels of the first `i` orders, the last of them possibly still growing. */
  ghost predicate Grouped(levels: seq<Level>, orders: seq<Order>, i: nat, buy: bool) {
    && i <= |orders| && Falling(levels, buy) && (i == 0 <==> levels == [])
    && (i > 0 ==> levels[|levels| - 1].price == orders[i - 1].price)
    && (forall k :: 0 <= k < |levels| ==>
        && levels[k].quantity == DepthAt(orders[..i], levels[k].price)
        && exists j :: 0 <= j < i && orders[j].price == levels[k].price)
    && (forall j :: 0 <= j < i ==> Listed(levels, orders[j].price))
  }

  lemma NextIsNoBetter(levels: seq<Level>, orders: seq<Order>, i: nat, buy: bool)
    requires Sorting.Ordered(BookOrder(buy), orders) && Grouped(levels, orders, i, buy) && i < |orders|
    ensures forall k :: 0 <= k < |levels| && levels[k].price != orders[i].price ==>
      Worse(orders[i].price, levels[k].price, buy)
    ensures i > 0 && levels[|levels| - 1].price != orders[i].price ==>
      forall k :: 0 <= k < |levels| ==> levels[k].price != orders[i].price
  {
    if i > 0 {
      assert BookOrder(buy)(orders[i - 1], orders[i]);
    }
    forall k | 0 <= k < |levels| && levels[k].price != orders[i].price
      ensures Worse(orders[i].price, levels[k].price, buy)
    {
      var j :| 0 <= j < i && orders[j].price == levels[k].price;
      assert BookOrder(buy)(orders[j], orders[i]);
    }
  }

  lemma GrowLast(levels: seq<Level>, orders: seq<Order>, i: nat, buy: bool)
    requires Sorting.Ordered(BookOrder(buy), orders) && Grouped(levels, orders, i, buy) && 0 < i < |orders|
    requires levels[|levels| - 1].price == orders[i].price
    ensures var last := |levels| - 1;
      Grouped(levels[last := levels[last].(quantity := levels[last].quantity + orders[i].remaining)], orders, i + 1,
              buy)
  {
    hide Ahead, DepthAt;
    var last := |levels| - 1;
    var after := levels[last := levels[last].(quantity := levels[last].quantity + orders[i].remaining)];
    assert forall k :: 0 <= k < |levels| ==> after[k].price == levels[k].price;
    forall j | 0 <= j < i + 1
      ensures Listed(after, orders[j].price)
    {
      if j < i {
        var k :| 0 <= k < |levels| && levels[k].price == orders[j].price;
        assert after[k].price == orders[j].price;
      } else {
        assert after[last].price == orders[j].price;
      }
    }
    forall k | 0 <= k < |after|
      ensures after[k].quantity == DepthAt(orders[..i + 1], after[k].price)
    {
      assert k < last ==> Worse(levels[last].price, levels[k].price, buy);
      DepthAtNext(orders, i, after[k].price);
    }
  }

  lemma StartLevel(levels: seq<Level>, orders: seq<Order>, i: nat, buy: bool)
    requires Sorting.Ordered(BookOrder(buy), orders) && Grouped(levels, orders, i, buy) && i < |orders|
    requires i == 0 || levels[|levels| - 1].price != orders[i].price
    ensures Grouped(levels + [Level(orders[i].price, orders[i].remaining)], orders, i + 1, buy)
  {
    hide Ahead, DepthAt;
    var after := levels + [Level(orders[i].price, orders[i].remaining)];
    NextIsNoBetter(levels, orders, i, buy);
    forall price: nat
      ensures DepthAt(orders[..i + 1], price)
        == DepthAt(orders[..i], price) + if orders[i].price == price then orders[i].remaining else 0
    {
      DepthAtNext(orders, i, price);
    }
    forall j | 0 <= j < i
      ensures orders[j].price != orders[i].price && Listed(after, orders[j].price)
    {
      var k :| 0 <= k < |levels| && levels[k].price == orders[j].price;
      assert after[k].price == orders[j].price;
    }
    DepthAtAbsent(orders[..i], orders[i].price);
    assert after[|levels|].price == orders[i].price;
    assert forall k :: 0 <= k < |levels| ==> after[k] == levels[k];
  }

  /** Orders beyond a full list of levels are worse than all of them. */
  lemma RestIsWorse(levels: seq<Level>, orders: seq<Order>, i: nat, buy: bool)
    requires Sorting.Ordered(BookOrder(buy), orders) && Grouped(levels, orders, i, buy) && 0 < i < |orders|
    requires levels[|levels| - 1].price != orders[i].price
    ensures Summarises(levels, orders, buy)
  {
    hide Ahead;
    var worst := levels[|levels| - 1].price;
    forall j | i <= j < |orders|
      ensures forall k :: 0 <= k < |levels| ==> Worse(orders[j].price, levels[k].price, buy)
    {
      LaterIsWorse(levels, orders, i, j, buy);
    }
    forall k | 0 <= k < |levels|
      ensures levels[k].quantity == DepthAt(orders, levels[k].price)
    {
      DepthAtTail(orders, i, levels[k].price);
    }
  }

  lemma LaterIsWorse(levels: seq<Level>, orders: seq<Order>, i: nat, j: nat, buy: bool)
    requires Sorting.Ordered(BookOrder(buy), orders) && Grouped(levels, orders, i, buy) && 0 < i <= j < |orders|
    requires levels[|levels| - 1].price != orders[i].price
    ensures forall k :: 0 <= k < |levels| ==> Worse(orders[j].price, levels[k].price, buy)
  {
    NextIsNoBetter(levels, orders, i, buy);
    assert j > i ==> BookOrder(buy)(orders[i], orders[j]);
  }

  /** The grouping as it proceeds: `levels` so far, `orders` still to come. */
  function Grouping(levels: seq<Level>, orders: seq<Order>, maxLevels: nat): seq<Level>
    decreases |orders|
  {
    if orders == [] then levels
    else
      var o := orders[0];
      if levels != [] && levels[|levels| - 1].price == o.price then
        var last := |levels| - 1;
        Grouping(levels[last := levels[last].(quantity := levels[last].quantity + o.remaining)], orders[1..], maxLevels)
      else if |levels| >= maxLevels then levels
      else Grouping(levels + [Level(o.price, o.remaining)], orders[1..], maxLevels)
  }

  /** Groups a prioritised side by price, at most `maxLevels` prices deep. */
  method Aggregate(orders: seq<Order>, maxLevels: nat, buy: bool) returns (levels: seq<Level>)
    requires Sorting.Ordered(BookOrder(buy), orders) && maxLevels >= 1
    ensures levels == Grouping([], orders, maxLevels)
    ensures |levels| <= maxLevels && Summarises(levels, orders, buy)
    ensures |levels| == maxLevels || forall i :: 0 <= i < |orders| ==> Listed(levels, orders[i].price)
  {
    hide Ahead, BookOrder, Sorting.Ordered, Grouped, Summarises, Listed;
    levels := [];
    GroupsNothing(orders, buy);
    for i := 0 to |orders|
      invariant |levels| <= maxLevels && Grouped(levels, orders, i, buy)
      invariant Grouping([], orders, maxLevels) == Grouping(levels, orders[i..], maxLevels)
    {
      var o := orders[i];
      assert orders[i..][1..] == orders[i + 1..];
      GroupsSome(levels, orders, i, buy);
      if |levels| > 0 && levels[|levels| - 1].price == o.price {
        var last := |levels| - 1;
        GrowLast(levels, orders, i, buy);
        levels := levels[last := levels[last].(quantity := levels[last].quantity + o.remaining)];
      } else {
        if |levels| >= maxLevels {
          RestIsWorse(levels, orders, i, buy);
          return;
        }
        StartLevel(levels, orders, i, buy);
        levels := levels + [Level(o.price, o.remaining)];
      }
    }
    GroupsAll(levels, orders, buy);
  }

  lemma GroupsNothing(orders: seq<Order>, buy: bool)
    ensures Grouped([], orders, 0, buy)
  {
  }

  lemma GroupsSome(levels: seq<Level>, orders: seq<Order>, i: nat, buy: bool)
    requires Grouped(levels, orders, i, buy)
    ensures i == 0 <==> levels == []
  {
  }

  /** When every order has its level, the levels sum the side up. */
  lemma GroupsAll(levels: seq<Level>, orders: seq<Order>, buy: bool)
    requires Grouped(levels, orders, |orders|, buy)
    ensures Summarises(levels, orders, buy) && forall i :: 0 <= i < |orders| ==> Listed(levels, orders[i].price)
  {
    hide Worse, Listed;
    assert orders[..|orders|] == orders;
  }

  /** The best quote of a one-level view is the front of the side. */
  lemma {:induction false} FrontIsFirstLevel(orders: seq<Order>, level: Level)
    ensures Grouping([level], orders, 1) == [Level(level.price, level.quantity + LeadSize(orders, level.price))]
    decreases |orders|
  {
    if orders != [] && orders[0].price == level.price {
      assert [level][0 := level.(quantity := level.quantity + orders[0].remaining)]
        == [level.(quantity := level.quantity + orders[0].remaining)];
      FrontIsFirstLevel(orders[1..], level.(quantity := level.quantity + orders[0].remaining));
    }
  }

  /** So the quotes that flow is measured by are those of the view one level deep. */
  lemma BestIsFirstLevel(orders: seq<Order>)
    requires orders != []
    ensures Grouping([], orders, 1) == [Level(orders[0].price, BestSize(orders))]
  {
    var first := Level(orders[0].price, orders[0].remaining);
    assert [] + [first] == [first];
    FrontIsFirstLevel(orders[1..], first);
  }
}
