/**
 The reference market for the finite planner: a queue of lots that is served one share at a time.
 The head lot gives up a share; a lot whose visible shares are gone leaves the queue, or, if it
 hides more, comes back behind everything queued at its own price. There are no clocks, no
 sequence numbers and no loops here, so the planner can be judged against it.
 */
module ShareQueue {

  /** `refills` lists the visible quantities an iceberg still has to show, in order. */
  datatype Lot<T> = Lot(id: T, price: int, qty: nat, refills: seq<nat>)

  datatype Share<T> = Share(id: T, price: int)

  /** The prices an execution accepts. */
  datatype Band = Any | AtMost(top: int) | AtLeast(bottom: int) {
    predicate Allows(price: int) {
      match this
      case Any => true
      case AtMost(top) => price <= top
      case AtLeast(bottom) => price >= bottom
    }
  }

  predicate Live<T>(l: Lot<T>) {
    l.qty > 0 && forall i :: 0 <= i < |l.refills| ==> l.refills[i] > 0
  }

  predicate AllLive<T>(q: seq<Lot<T>>) {
    forall i :: 0 <= i < |q| ==> Live(q[i])
  }

  function Requeue<T>(q: seq<Lot<T>>, l: Lot<T>): seq<Lot<T>> {
    if q != [] && q[0].price == l.price then [q[0]] + Requeue(q[1..], l) else [l] + q
  }

  /** What becomes of the queue when the visible shares of its head are gone. */
  function Exhaust<T>(q: seq<Lot<T>>): seq<Lot<T>>
    requires q != []
  {
    if q[0].refills == [] then q[1..]
    else Requeue(q[1..], q[0].(qty := q[0].refills[0], refills := q[0].refills[1..]))
  }

  /** What becomes of the queue when its head gives up `t` shares. */
  function AfterTake<T>(q: seq<Lot<T>>, t: nat): seq<Lot<T>>
    requires q != []
  {
    if t < q[0].qty then [q[0].(qty := q[0].qty - t)] + q[1..] else Exhaust(q)
  }

  function Tape<T>(q: seq<Lot<T>>, n: nat): seq<Share<T>>
    decreases n
  {
    if n == 0 || q == [] then [] else [Share(q[0].id, q[0].price)] + Tape(AfterTake(q, 1), n - 1)
  }

  function Rest<T>(q: seq<Lot<T>>, n: nat): seq<Lot<T>>
    decreases n
  {
    if n == 0 || q == [] then q else Rest(AfterTake(q, 1), n - 1)
  }

  /** Serving `a` and then `b` shares is serving `a + b` shares. */
  lemma {:induction false} ServingComposes<T>(q: seq<Lot<T>>, a: nat, b: nat)
    ensures Tape(q, a + b) == Tape(q, a) + Tape(Rest(q, a), b)
    ensures Rest(q, a + b) == Rest(Rest(q, a), b)
    decreases a
  {
    if a > 0 && q != [] {
      ServingComposes(AfterTake(q, 1), a - 1, b);
    }
  }

  function Copies<T>(s: Share<T>, n: nat): seq<Share<T>> {
    seq(n, _ => s)
  }

  /** A whole slice taken from the head is the same as its shares taken one by one. */
  lemma {:induction false} SliceIsShares<T>(q: seq<Lot<T>>, t: nat)
    requires q != [] && 1 <= t <= q[0].qty
    ensures Tape(q, t) == Copies(Share(q[0].id, q[0].price), t)
    ensures Rest(q, t) == AfterTake(q, t)
    decreases t
  {
    var s := Share(q[0].id, q[0].price);
    var next := AfterTake(q, 1);
    assert Tape(q, t) == [s] + Tape(next, t - 1);
    if t == 1 {
      assert Tape(next, 0) == [];
    } else {
      assert next == [q[0].(qty := q[0].qty - 1)] + q[1..];
      SliceIsShares(next, t - 1);
      assert AfterTake(next, t - 1) == AfterTake(q, t);
    }
  }

  function Sum(s: seq<nat>): nat {
    if s == [] then 0 else s[0] + Sum(s[1..])
  }

  function Shares<T>(l: Lot<T>): nat { l.qty + Sum(l.refills) }

  /** The shares on offer, visible and hidden, at prices the band accepts. */
  function Depth<T>(q: seq<Lot<T>>, band: Band): nat {
    if q == [] then 0 else (if band.Allows(q[0].price) then Shares(q[0]) else 0) + Depth(q[1..], band)
  }

  lemma {:induction false} RequeueDepth<T>(q: seq<Lot<T>>, l: Lot<T>, band: Band)
    ensures Depth(Requeue(q, l), band) == Depth(q, band) + Depth([l], band)
  {
    if q != [] && q[0].price == l.price {
      RequeueDepth(q[1..], l, band);
    }
  }

  lemma {:induction false} RequeueLive<T>(q: seq<Lot<T>>, l: Lot<T>)
    requires AllLive(q) && Live(l)
    ensures AllLive(Requeue(q, l))
  {
    if q != [] && q[0].price == l.price {
      RequeueLive(q[1..], l);
    }
  }

  /** Serving shares uses up exactly that much of the depth and never invents any. */
  lemma TakeUsesDepth<T>(q: seq<Lot<T>>, t: nat, band: Band)
    requires q != [] && AllLive(q) && t <= q[0].qty
    ensures AllLive(AfterTake(q, t))
    ensures Depth(AfterTake(q, t), band) == Depth(q, band) - if band.Allows(q[0].price) then t else 0
  {
    assert Live(q[0]);
    if t == q[0].qty && q[0].refills != [] {
      var l := q[0].(qty := q[0].refills[0], refills := q[0].refills[1..]);
      assert Live(l);
      assert Depth([l], band) == if band.Allows(l.price) then Shares(l) else 0;
      RequeueDepth(q[1..], l, band);
      RequeueLive(q[1..], l);
    }
  }

  lemma {:induction false} TapeLength<T>(q: seq<Lot<T>>, n: nat)
    requires AllLive(q)
    ensures |Tape(q, n)| == if n <= Depth(q, Any) then n else Depth(q, Any)
    ensures AllLive(Rest(q, n)) && Depth(Rest(q, n), Any) == Depth(q, Any) - |Tape(q, n)|
    decreases n
  {
    if n > 0 && q != [] {
      assert Live(q[0]);
      TakeUsesDepth(q, 1, Any);
      TapeLength(AfterTake(q, 1), n - 1);
    }
  }

  /** The position of a refilled lot when its level is `a` and worse prices follow in `b`. */
  lemma {:induction false} RequeueGoesBehindItsLevel<T>(a: seq<Lot<T>>, b: seq<Lot<T>>, l: Lot<T>)
    requires forall i :: 0 <= i < |a| ==> a[i].price == l.price
    requires b == [] || b[0].price != l.price
    ensures Requeue(a + b, l) == a + [l] + b
  {
    if a == [] {
      assert a + b == b;
    } else {
      assert (a + b)[0] == a[0] && (a + b)[1..] == a[1..] + b;
      RequeueGoesBehindItsLevel(a[1..], b, l);
    }
  }

  function SharesOf<T(==)>(tape: seq<Share<T>>, id: T): nat {
    if tape == [] then 0 else (if tape[0].id == id then 1 else 0) + SharesOf(tape[1..], id)
  }

  function Held<T(==)>(q: seq<Lot<T>>, id: T): nat {
    if q == [] then 0 else (if q[0].id == id then Shares(q[0]) else 0) + Held(q[1..], id)
  }

  lemma {:induction false} RequeueHeld<T>(q: seq<Lot<T>>, l: Lot<T>, id: T)
    ensures Held(Requeue(q, l), id) == Held(q, id) + if l.id == id then Shares(l) else 0
  {
    if q != [] && q[0].price == l.price {
      RequeueHeld(q[1..], l, id);
    } else {
      assert ([l] + q)[1..] == q;
    }
  }

  /** No lot gains or loses a share except by trading it. */
  lemma {:induction false} EveryLotIsConserved<T>(q: seq<Lot<T>>, n: nat, id: T)
    requires AllLive(q)
    ensures SharesOf(Tape(q, n), id) + Held(Rest(q, n), id) == Held(q, id)
    decreases n
  {
    if n > 0 && q != [] {
      assert Live(q[0]);
      TakeUsesDepth(q, 1, Any);
      if q[0].qty == 1 && q[0].refills != [] {
        RequeueHeld(q[1..], q[0].(qty := q[0].refills[0], refills := q[0].refills[1..]), id);
      }
      EveryLotIsConserved(AfterTake(q, 1), n - 1, id);
    }
  }

  /** Best price first: `up` for a buyer, who climbs the asks. */
  predicate PriceOrdered<T>(q: seq<Lot<T>>, up: bool) {
    forall i, j :: 0 <= i < j < |q| ==> if up then q[i].price <= q[j].price else q[i].price >= q[j].price
  }

  predicate NoBetter(p: int, best: int, up: bool) {
    if up then best <= p else best >= p
  }

  ghost predicate NoneBetter<T>(q: seq<Lot<T>>, best: int, up: bool) {
    forall i :: 0 <= i < |q| ==> NoBetter(q[i].price, best, up)
  }

  lemma OrderedFromFront<T>(l: Lot<T>, q: seq<Lot<T>>, up: bool)
    ensures PriceOrdered([l] + q, up) <==> PriceOrdered(q, up) && NoneBetter(q, l.price, up)
  {
    var lq := [l] + q;
    assert forall i :: 0 <= i < |q| ==> lq[i + 1] == q[i];
    if PriceOrdered(lq, up) {
      forall i, j | 0 <= i < j < |q|
        ensures NoBetter(q[j].price, q[i].price, up)
      {
        assert lq[i + 1] == q[i] && lq[j + 1] == q[j];
      }
      forall i | 0 <= i < |q|
        ensures NoBetter(q[i].price, l.price, up)
      {
        assert lq[0] == l && lq[i + 1] == q[i];
      }
    }
  }

  lemma {:induction false} RequeueOrdered<T>(q: seq<Lot<T>>, l: Lot<T>, up: bool)
    requires PriceOrdered([l] + q, up)
    ensures PriceOrdered(Requeue(q, l), up) && NoneBetter(Requeue(q, l), l.price, up)
  {
    hide PriceOrdered;
    OrderedFromFront(l, q, up);
    if q != [] && q[0].price == l.price {
      assert [q[0]] + q[1..] == q;
      OrderedFromFront(q[0], q[1..], up);
      OrderedFromFront(l, q[1..], up);
      RequeueOrdered(q[1..], l, up);
      OrderedFromFront(q[0], Requeue(q[1..], l), up);
    } else {
      OrderedFromFront(l, q, up);
    }
  }

  lemma TakeKeepsOrder<T>(q: seq<Lot<T>>, up: bool)
    requires q != [] && PriceOrdered(q, up)
    ensures PriceOrdered(AfterTake(q, 1), up)
    ensures forall i :: 0 <= i < |AfterTake(q, 1)| ==> NoBetter(AfterTake(q, 1)[i].price, q[0].price, up)
  {
    if q[0].qty <= 1 && q[0].refills != [] {
      var l := q[0].(qty := q[0].refills[0], refills := q[0].refills[1..]);
      assert forall i :: 1 <= i < |[l] + q[1..]| ==> ([l] + q[1..])[i] == q[i];
      RequeueOrdered(q[1..], l, up);
    }
  }

  /** The walk never returns to a better price. */
  lemma {:induction false} TapeIsMonotone<T>(q: seq<Lot<T>>, n: nat, up: bool)
    requires PriceOrdered(q, up)
    ensures PriceOrdered(Rest(q, n), up)
    ensures q == [] ==> Tape(q, n) == []
    ensures q != [] ==> forall i :: 0 <= i < |Tape(q, n)| ==> NoBetter(Tape(q, n)[i].price, q[0].price, up)
    ensures forall i, j :: 0 <= i < j < |Tape(q, n)| ==> NoBetter(Tape(q, n)[j].price, Tape(q, n)[i].price, up)
    decreases n
  {
    if n > 0 && q != [] {
      var next := AfterTake(q, 1);
      TakeKeepsOrder(q, up);
      TapeIsMonotone(next, n - 1, up);
      var tail := Tape(next, n - 1);
      forall i | 0 <= i < |tail|
        ensures NoBetter(tail[i].price, q[0].price, up)
      {
        assert NoBetter(next[0].price, q[0].price, up);
      }
    }
  }

  function Relabel<T, U>(name: T -> U, q: seq<Lot<T>>): (r: seq<Lot<U>>)
    ensures |r| == |q| && forall i :: 0 <= i < |q| ==> r[i] == Lot(name(q[i].id), q[i].price, q[i].qty, q[i].refills)
  {
    seq(|q|, i requires 0 <= i < |q| => Lot(name(q[i].id), q[i].price, q[i].qty, q[i].refills))
  }

  function RelabelTape<T, U>(name: T -> U, s: seq<Share<T>>): (r: seq<Share<U>>)
    ensures |r| == |s| && forall i :: 0 <= i < |s| ==> r[i] == Share(name(s[i].id), s[i].price)
  {
    seq(|s|, i requires 0 <= i < |s| => Share(name(s[i].id), s[i].price))
  }

  lemma {:induction false} RequeueIgnoresNames<T, U>(name: T -> U, q: seq<Lot<T>>, l: Lot<T>)
    ensures Relabel(name, Requeue(q, l)) == Requeue(Relabel(name, q), Lot(name(l.id), l.price, l.qty, l.refills))
  {
    if q != [] && q[0].price == l.price {
      RequeueIgnoresNames(name, q[1..], l);
      assert Relabel(name, q)[1..] == Relabel(name, q[1..]);
    }
  }

  lemma TakeIgnoresNames<T, U>(name: T -> U, q: seq<Lot<T>>)
    requires q != []
    ensures AfterTake(Relabel(name, q), 1) == Relabel(name, AfterTake(q, 1))
  {
    assert Relabel(name, q)[1..] == Relabel(name, q[1..]);
    if q[0].qty <= 1 && q[0].refills != [] {
      RequeueIgnoresNames(name, q[1..], q[0].(qty := q[0].refills[0], refills := q[0].refills[1..]));
    }
  }

  /** The queue serves by price and position only: it does not matter how its lots are called. */
  lemma {:induction false} ServingIgnoresNames<T, U>(name: T -> U, q: seq<Lot<T>>, n: nat)
    ensures Tape(Relabel(name, q), n) == RelabelTape(name, Tape(q, n))
    ensures Rest(Relabel(name, q), n) == Relabel(name, Rest(q, n))
    decreases n
  {
    if n > 0 && q != [] {
      TakeIgnoresNames(name, q);
      ServingIgnoresNames(name, AfterTake(q, 1), n - 1);
    }
  }
}
