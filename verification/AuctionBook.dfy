/**
 One side of a book in the opening auction: who is willing at a price, and what serving the front of
 the queue leaves.
 */
module AuctionBook {
  import opened Wrappers
  import opened Numbers
  import opened Liquidity

  /** A visible row. `key` is the row's own identity in the book. */
  datatype Entry = Entry(key: nat, orderId: Option<string>, account: Option<string>, side: Side, price: int, qty: int,
                         virtual: bool,
                         mmId: Option<string>, tag: Option<string>)

  function Excess(a: int, b: int): int { if a <= b then 0 else a - b }

  predicate Willing(e: Entry, p: int, bid: bool) { if bid then e.price >= p else e.price <= p }

  /** Shares on one side that would trade at `p`. */
  function Depth(rows: seq<Entry>, p: int, bid: bool): int {
    if rows == [] then 0 else (if Willing(rows[0], p, bid) then rows[0].qty else 0) + Depth(rows[1..], p, bid)
  }

  function VolumeAt(bids: seq<Entry>, asks: seq<Entry>, p: int): int {
    Lesser(Depth(bids, p, true), Depth(asks, p, false))
  }

  function Queue(rows: seq<Entry>, p: int, bid: bool): seq<Entry> {
    if rows == [] then [] else (if Willing(rows[0], p, bid) then [rows[0]] else []) + Queue(rows[1..], p, bid)
  }

  /** The side after the first `n` shares that are willing at `p` have gone. */
  function Take(rows: seq<Entry>, p: int, bid: bool, n: int): seq<Entry> {
    if rows == [] then []
    else if !Willing(rows[0], p, bid) then [rows[0]] + Take(rows[1..], p, bid, n)
    else if n >= rows[0].qty then Take(rows[1..], p, bid, n - rows[0].qty)
    else [rows[0].(qty := rows[0].qty - n)] + rows[1..]
  }

  /** Takes `q` shares off the row with this identity. */
  function RemoveEntry(rows: seq<Entry>, key: nat, q: int): seq<Entry> {
    if rows == [] then []
    else if rows[0].key != key then [rows[0]] + RemoveEntry(rows[1..], key, q)
    else if q >= rows[0].qty then rows[1..]
    else [rows[0].(qty := rows[0].qty - q)] + rows[1..]
  }

  ghost predicate Positive(rows: seq<Entry>) {
    forall i :: 0 <= i < |rows| ==> rows[i].qty > 0 && rows[i].price > 0
  }

  function Keys(rows: seq<Entry>): set<nat> {
    if rows == [] then {} else {rows[0].key} + Keys(rows[1..])
  }

  /** No two rows share an identity. */
  predicate Identified(rows: seq<Entry>) {
    rows == [] || (rows[0].key !in Keys(rows[1..]) && Identified(rows[1..]))
  }

  lemma {:induction false} KeysHold(rows: seq<Entry>, e: Entry)
    requires e in rows
    ensures e.key in Keys(rows)
  {
    if e != rows[0] { KeysHold(rows[1..], e); }
  }

  /** Best price first. */
  ghost predicate BestFirst(rows: seq<Entry>, bid: bool) {
    forall i, j :: 0 <= i < j < |rows| ==>
      if bid then rows[i].price >= rows[j].price else rows[i].price <= rows[j].price
  }

  function Held(rows: seq<Entry>, key: nat): int {
    if rows == [] then 0 else (if rows[0].key == key then rows[0].qty else 0) + Held(rows[1..], key)
  }

  lemma {:induction false} DepthIsNotNegative(rows: seq<Entry>, p: int, bid: bool)
    requires Positive(rows)
    ensures Depth(rows, p, bid) >= 0
  {
    if rows != [] { DepthIsNotNegative(rows[1..], p, bid); }
  }

  /** A less demanding price never finds fewer shares. */
  lemma {:induction false} DepthIsMonotone(rows: seq<Entry>, p: int, x: int, bid: bool)
    requires Positive(rows) && (if bid then x <= p else x >= p)
    ensures Depth(rows, x, bid) >= Depth(rows, p, bid)
  {
    if rows != [] { DepthIsMonotone(rows[1..], p, x, bid); }
  }

  /** Between two prices that no row separates, the depth is the same. */
  lemma {:induction false} DepthIsFlat(rows: seq<Entry>, p: int, x: int, bid: bool)
    requires forall i :: 0 <= i < |rows| ==> (Willing(rows[i], p, bid) <==> Willing(rows[i], x, bid))
    ensures Depth(rows, p, bid) == Depth(rows, x, bid)
  {
    if rows != [] {
      assert Willing(rows[0], p, bid) <==> Willing(rows[0], x, bid);
      DepthIsFlat(rows[1..], p, x, bid);
    }
  }

  lemma {:induction false} EmptyQueue(rows: seq<Entry>, p: int, bid: bool)
    requires Queue(rows, p, bid) == []
    ensures Depth(rows, p, bid) == 0
  {
    if rows != [] { EmptyQueue(rows[1..], p, bid); }
  }

  lemma {:induction false} QueueIsWilling(rows: seq<Entry>, p: int, bid: bool)
    ensures forall e :: e in Queue(rows, p, bid) ==> e in rows && Willing(e, p, bid)
  {
    if rows != [] { QueueIsWilling(rows[1..], p, bid); }
  }

  lemma TakeNothing(rows: seq<Entry>, p: int, bid: bool)
    requires Positive(rows)
    ensures Take(rows, p, bid, 0) == rows
  {
    if rows != [] {
      if !Willing(rows[0], p, bid) { TakeNothing(rows[1..], p, bid); }
    }
  }

  /** Serving in two goes leaves what serving once leaves. */
  lemma {:induction false} TakesCompose(rows: seq<Entry>, p: int, bid: bool, t: int, q: int)
    requires Positive(rows) && t >= 0 && q >= 0
    ensures Take(Take(rows, p, bid, t), p, bid, q) == Take(rows, p, bid, t + q)
  {
    if rows != [] {
      if !Willing(rows[0], p, bid) {
        TakesCompose(rows[1..], p, bid, t, q);
        var mid := Take(rows[1..], p, bid, t);
        assert ([rows[0]] + mid)[1..] == mid;
      } else if t >= rows[0].qty {
        TakesCompose(rows[1..], p, bid, t - rows[0].qty, q);
      } else {
        assert ([rows[0].(qty := rows[0].qty - t)] + rows[1..])[1..] == rows[1..];
      }
    }
  }

  lemma {:induction false} TakeKeepsShape(rows: seq<Entry>, p: int, bid: bool, n: int)
    requires Positive(rows) && Identified(rows) && n >= 0
    ensures var after := Take(rows, p, bid, n);
      Positive(after) && Identified(after) && Keys(after) <= Keys(rows)
  {
    if rows != [] {
      if !Willing(rows[0], p, bid) {
        TakeKeepsShape(rows[1..], p, bid, n);
        var mid := Take(rows[1..], p, bid, n);
        assert ([rows[0]] + mid)[1..] == mid;
      } else if n >= rows[0].qty {
        TakeKeepsShape(rows[1..], p, bid, n - rows[0].qty);
      } else {
        assert ([rows[0].(qty := rows[0].qty - n)] + rows[1..])[1..] == rows[1..];
      }
    }
  }

  lemma {:induction false} TakeUsesDepth(rows: seq<Entry>, p: int, bid: bool, n: int)
    requires Positive(rows) && 0 <= n <= Depth(rows, p, bid)
    ensures Depth(Take(rows, p, bid, n), p, bid) == Depth(rows, p, bid) - n
  {
    if rows != [] {
      if !Willing(rows[0], p, bid) {
        TakeUsesDepth(rows[1..], p, bid, n);
        var mid := Take(rows[1..], p, bid, n);
        assert ([rows[0]] + mid)[1..] == mid;
      } else if n >= rows[0].qty {
        TakeUsesDepth(rows[1..], p, bid, n - rows[0].qty);
      } else {
        assert ([rows[0].(qty := rows[0].qty - n)] + rows[1..])[1..] == rows[1..];
      }
    }
  }

  lemma {:induction false} NobodyBehind(rows: seq<Entry>, p: int, bid: bool)
    requires BestFirst(rows, bid) && (rows != [] ==> !Willing(rows[0], p, bid))
    ensures Depth(rows, p, bid) == 0
  {
    if |rows| > 1 {
      assert !Willing(rows[1], p, bid);
      NobodyBehind(rows[1..], p, bid);
    }
  }

  /**
   In a sorted side the shares that went are the best ones, so at every price the depth falls by all
   of them, or to nothing.
   */
  lemma {:induction false} DepthAfter(rows: seq<Entry>, p: int, bid: bool, n: int, x: int)
    requires Positive(rows) && BestFirst(rows, bid) && 0 <= n <= Depth(rows, p, bid)
    ensures Depth(Take(rows, p, bid, n), x, bid) == Excess(Depth(rows, x, bid), n)
  {
    if rows != [] {
      DepthIsNotNegative(rows[1..], x, bid);
      if !Willing(rows[0], x, bid) { NobodyBehind(rows, x, bid); }
      if !Willing(rows[0], p, bid) {
        NobodyBehind(rows, p, bid);
        TakeNothing(rows, p, bid);
        DepthIsNotNegative(rows, x, bid);
      } else if n >= rows[0].qty {
        DepthAfter(rows[1..], p, bid, n - rows[0].qty, x);
      } else {
        assert ([rows[0].(qty := rows[0].qty - n)] + rows[1..])[1..] == rows[1..];
      }
    }
  }

  /** Serving the head of the queue is removing shares from that very row. */
  lemma {:induction false} HeadServed(rows: seq<Entry>, p: int, bid: bool, q: int)
    requires Positive(rows) && Identified(rows) && Queue(rows, p, bid) != [] && 0 < q <= Queue(rows, p, bid)[0].qty
    ensures var queue := Queue(rows, p, bid);
      && RemoveEntry(rows, queue[0].key, q) == Take(rows, p, bid, q)
      && Queue(Take(rows, p, bid, q), p, bid)
         == (if q == queue[0].qty then [] else [queue[0].(qty := queue[0].qty - q)]) + queue[1..]
  {
    if Willing(rows[0], p, bid) {
      if q < rows[0].qty {
        assert ([rows[0].(qty := rows[0].qty - q)] + rows[1..])[1..] == rows[1..];
      } else {
        TakeNothing(rows[1..], p, bid);
      }
    } else {
      HeadServed(rows[1..], p, bid, q);
      QueueIsWilling(rows[1..], p, bid);
      KeysHold(rows[1..], Queue(rows, p, bid)[0]);
      var mid := Take(rows[1..], p, bid, q);
      assert ([rows[0]] + mid)[1..] == mid;
    }
  }

  lemma {:induction false} RemovedIsAccounted(rows: seq<Entry>, p: int, bid: bool, q: int, key: nat)
    requires Positive(rows) && Identified(rows) && Queue(rows, p, bid) != [] && 0 < q <= Queue(rows, p, bid)[0].qty
    ensures Held(RemoveEntry(rows, Queue(rows, p, bid)[0].key, q), key)
      == Held(rows, key) - if key == Queue(rows, p, bid)[0].key then q else 0
  {
    var at := Queue(rows, p, bid)[0].key;
    if Willing(rows[0], p, bid) {
      assert q < rows[0].qty ==> ([rows[0].(qty := rows[0].qty - q)] + rows[1..])[1..] == rows[1..];
    } else {
      RemovedIsAccounted(rows[1..], p, bid, q, key);
      QueueIsWilling(rows[1..], p, bid);
      KeysHold(rows[1..], Queue(rows, p, bid)[0]);
      var mid := RemoveEntry(rows[1..], at, q);
      assert ([rows[0]] + mid)[1..] == mid;
    }
  }
}
