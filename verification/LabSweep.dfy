/** What an incoming order may take from the other side, said without a loop. */
module LabSweep {
  import opened Wrappers
  import opened LabMoney
  import opened LabState

  datatype Event = Event(id: string, actor: string, side: Side, quantity: int, price: Option<int>, sequence: int,
                         tick: int)

  datatype Reason = InvalidId | InvalidActor | InvalidQuantity | InvalidSequence | InvalidTick | InvalidPrice
    | UnknownActor
    | DuplicateOrderId | InsufficientCash | InsufficientInventory | SelfTradePrevented | MarketRemainderCancelled

  datatype Outcome = Outcome(filled: nat, unfilled: nat, resting: nat, trades: seq<Trade>, reason: Option<Reason>)

  /** What a trimmed identifier loses at its ends. */
  predicate IsBlank(c: char) {
    var n := c as int;
    9 <= n <= 13 || n == 0x20 || n == 0xa0 || n == 0x1680 || 0x2000 <= n <= 0x200a || n == 0x2028 || n == 0x2029
    || n == 0x202f || n == 0x205f || n == 0x3000 || n == 0xfeff
  }

  predicate IsIdentifier(s: string) {
    0 < |s| <= MAX_IDENTIFIER_LENGTH && exists i :: 0 <= i < |s| && !IsBlank(s[i])
  }

  /** The first complaint about an event, if any. */
  function Complaint(e: Event): Option<Reason> {
    if !IsIdentifier(e.id) then Some(InvalidId)
    else if !IsIdentifier(e.actor) then Some(InvalidActor)
    else if !(1 <= e.quantity <= MAX_QUANTITY) then Some(InvalidQuantity)
    else if !(0 <= e.sequence <= MAX_TICK_OR_SEQUENCE) then Some(InvalidSequence)
    else if !(0 <= e.tick <= MAX_TICK_OR_SEQUENCE) then Some(InvalidTick)
    else if e.price.Some? && !(MIN_PRICE_CENTS <= e.price.value <= MAX_PRICE_CENTS) then Some(InvalidPrice)
    else None
  }

  function Rejected(reason: Reason, unfilled: nat): Outcome { Outcome(0, unfilled, 0, [], Some(reason)) }

  /** Whether the incoming order may trade with `o`. */
  predicate Acceptable(o: Order, actor: string, price: Option<int>, buys: bool) {
    && o.actor != actor
    && (price.Some? ==> if buys then o.price <= price.value else o.price >= price.value)
  }

  /** The shares an order can reach: everything before the first price or own order that stops it. */
  function Reach(orders: seq<Order>, actor: string, price: Option<int>, buys: bool): nat {
    if orders == [] || !Acceptable(orders[0], actor, price, buys) then 0
    else orders[0].remaining + Reach(orders[1..], actor, price, buys)
  }

  function Total(orders: seq<Order>): nat {
    if orders == [] then 0 else orders[0].remaining + Total(orders[1..])
  }

  /** The side after `n` shares have been taken strictly from the front. */
  function Consumed(orders: seq<Order>, n: nat): seq<Order> {
    if n == 0 || orders == [] then orders
    else if n < orders[0].remaining then [orders[0].(remaining := orders[0].remaining - n)] + orders[1..]
    else Consumed(orders[1..], n - orders[0].remaining)
  }

  datatype Fill = Fill(order: string, owner: string, price: nat, quantity: nat)

  /** Who gives how much when `n` shares are taken from the front. */
  function FillsOf(orders: seq<Order>, n: nat): seq<Fill> {
    if n == 0 || orders == [] then []
    else
      var take := if n < orders[0].remaining then n else orders[0].remaining;
      [Fill(orders[0].id, orders[0].actor, orders[0].price, take)] + FillsOf(orders[1..], n - take)
  }

  /** Trades that carry out `fills` for one aggressor, numbered in order, at resting prices and exact fees. */
  predicate CarryOut(trades: seq<Trade>, fills: seq<Fill>, e: Event, feeBps: nat) {
    && |trades| == |fills|
    && forall k :: 0 <= k < |trades| ==>
         var t, f, buys := trades[k], fills[k], e.side.Buy?;
         && t.restingOrder == f.order && t.price == f.price && t.quantity == f.quantity && t.aggressor == e.actor
         && t.buyer == (if buys then e.actor else f.owner) && t.seller == (if buys then f.owner else e.actor)
         && t.buyerFee == t.sellerFee == FeeFor(f.price, f.quantity, feeBps)
         && t.index == k && t.sequence == e.sequence && t.tick == e.tick
  }

  lemma {:induction false} ReachAfterPrefix(orders: seq<Order>, k: nat, actor: string, price: Option<int>, buys: bool)
    requires k <= |orders| && forall i :: 0 <= i < k ==> Acceptable(orders[i], actor, price, buys)
    ensures Reach(orders, actor, price, buys) == Total(orders[..k]) + Reach(orders[k..], actor, price, buys)
  {
    if k > 0 {
      ReachAfterPrefix(orders[1..], k - 1, actor, price, buys);
      assert orders[..k][1..] == orders[1..][..k - 1] && orders[k..] == orders[1..][k - 1..];
    }
  }

  lemma PrefixOfTail(orders: seq<Order>, k: nat)
    requires 0 < k < |orders|
    ensures Total(orders[..k]) == orders[0].remaining + Total(orders[1..][..k - 1])
    ensures orders[k..] == orders[1..][k - 1..]
  {
    assert orders[..k][1..] == orders[1..][..k - 1];
  }

  /** Taking the front order in full, and `m` shares behind it. */
  lemma TakeFront(orders: seq<Order>, m: nat)
    requires orders != [] && orders[0].remaining > 0
    ensures Consumed(orders, orders[0].remaining + m) == Consumed(orders[1..], m)
    ensures FillsOf(orders, orders[0].remaining + m)
      == [Fill(orders[0].id, orders[0].actor, orders[0].price, orders[0].remaining)] + FillsOf(orders[1..], m)
  {
  }

  /** Taking exactly the first `k` orders, and then `q` shares of the next one. */
  lemma {:induction false} ConsumeNext(orders: seq<Order>, k: nat, q: nat)
    requires k < |orders| && q <= orders[k].remaining && forall i :: 0 <= i < |orders| ==> orders[i].remaining > 0
    ensures Consumed(orders, Total(orders[..k]) + q) == Consumed(orders[k..], q)
    ensures FillsOf(orders, Total(orders[..k]) + q) == FillsOf(orders, Total(orders[..k])) + FillsOf(orders[k..], q)
    ensures |FillsOf(orders, Total(orders[..k]))| == k
  {
    if k > 0 {
      hide Consumed, FillsOf, Total;
      PrefixOfTail(orders, k);
      var before := Total(orders[1..][..k - 1]);
      TakeFront(orders, before);
      TakeFront(orders, before + q);
      ConsumeNext(orders[1..], k - 1, q);
    }
  }

  lemma {:induction false} TotalGrows(orders: seq<Order>, k: nat)
    requires k < |orders|
    ensures Total(orders[..k + 1]) == Total(orders[..k]) + orders[k].remaining
  {
    if k == 0 {
      assert orders[..1][1..] == [];
    } else {
      TotalGrows(orders[1..], k - 1);
      assert orders[..k + 1][1..] == orders[1..][..k] && orders[..k][1..] == orders[1..][..k - 1];
    }
  }

  /** The cash and the shares that a record of trades brings to an account. */
  function NetCash(trades: seq<Trade>, id: string): int {
    if trades == [] then 0
    else
      var t := trades[|trades| - 1];
      NetCash(trades[..|trades| - 1], id) - (if t.buyer == id then t.price * t.quantity + t.buyerFee else 0)
      + (if t.seller == id then t.price * t.quantity - t.sellerFee else 0)
  }

  function NetShares(trades: seq<Trade>, id: string): int {
    if trades == [] then 0
    else
      var t := trades[|trades| - 1];
      NetShares(trades[..|trades| - 1], id)
        + (if t.buyer == id then t.quantity else 0) - (if t.seller == id then t.quantity else 0)
  }

  function FeesOf(trades: seq<Trade>): nat {
    if trades == [] then 0
    else FeesOf(trades[..|trades| - 1]) + trades[|trades| - 1].buyerFee + trades[|trades| - 1].sellerFee
  }

  /** Sweeping brings no new identifiers. */
  lemma {:induction false} ConsumedKeepsIds(orders: seq<Order>, n: nat, id: string)
    requires forall i :: 0 <= i < |orders| ==> orders[i].id != id
    ensures forall i :: 0 <= i < |Consumed(orders, n)| ==> Consumed(orders, n)[i].id != id
  {
    if n > 0 && orders != [] && n >= orders[0].remaining {
      ConsumedKeepsIds(orders[1..], n - orders[0].remaining, id);
    }
  }

  function Filled(fills: seq<Fill>): nat {
    if fills == [] then 0 else fills[0].quantity + Filled(fills[1..])
  }

  /**
   Price-time priority in full: every order but the last one touched is used up, in queue order, and
   nothing is lost.
   */
  lemma {:induction false} FillsFollowPriority(orders: seq<Order>, n: nat)
    requires forall i :: 0 <= i < |orders| ==> orders[i].remaining > 0
    ensures |FillsOf(orders, n)| <= |orders|
    ensures Filled(FillsOf(orders, n)) == (if n <= Total(orders) then n else Total(orders))
    ensures forall k :: 0 <= k < |FillsOf(orders, n)| ==>
      FillsOf(orders, n)[k].order == orders[k].id && FillsOf(orders, n)[k].quantity <= orders[k].remaining
    ensures forall k :: 0 <= k < |FillsOf(orders, n)| - 1 ==> FillsOf(orders, n)[k].quantity == orders[k].remaining
    ensures Total(Consumed(orders, n)) == Total(orders) - Filled(FillsOf(orders, n))
  {
    if n > 0 && orders != [] {
      var take := if n < orders[0].remaining then n else orders[0].remaining;
      FillsFollowPriority(orders[1..], n - take);
      if n < orders[0].remaining {
        assert Consumed(orders, n)[1..] == orders[1..];
      }
    }
  }
}
