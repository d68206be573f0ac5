/**
 Reading a plan's leftovers back. They are always an acceptable book, and they line up as the rest of
 the queue does exactly when no leftover that is numbered by its position overtakes another.
 */
module Resumption {
  import opened Wrappers
  import opened Liquidity
  import opened ShareQueue
  import opened PlanWalk
  import opened Opening
  import opened Residue
  import Sorting

  /** The position at which the row read at `index` now stands. */
  function Place(survivors: seq<State>, index: nat): nat {
    if survivors == [] || survivors[0].index == index then 0 else 1 + Place(survivors[1..], index)
  }

  lemma {:induction false} PlaceOf(survivors: seq<State>, j: nat)
    requires DistinctRows(survivors) && j < |survivors|
    ensures Place(survivors, survivors[j].index) == j
  {
    if j > 0 {
      assert survivors[0].index != survivors[j].index;
      PlaceOf(survivors[1..], j - 1);
    }
  }

  /** A queued item as it is read back: a row under its new position. */
  function Moved(survivors: seq<State>, p: Item): Item {
    var j := Place(survivors, p.index);
    if p.external || j >= |survivors| then p else RowItem(ReadBack(survivors[j], j), j)
  }

  function MovedAll(survivors: seq<State>, items: seq<Item>): (r: seq<Item>)
    ensures |r| == |items| && forall i :: 0 <= i < |r| ==> r[i] == Moved(survivors, items[i])
  {
    seq(|items|, i requires 0 <= i < |items| => Moved(survivors, items[i]))
  }

  /** Item `p` belongs to the survivor at its new place. */
  ghost predicate Homed(survivors: seq<State>, states: seq<State>, p: Item) {
    !p.external ==>
      && p.slot < |states| && Place(survivors, p.index) < |survivors|
      && survivors[Place(survivors, p.index)] == states[p.slot]
  }

  lemma PendingIsHomed(up: bool, w: Walk, i: nat)
    requires PendingMatches(w) && Increasing(w.states) && i < |w.pending|
    ensures Homed(Survivors(w.states, up), w.states, w.pending[i])
  {
    var p, s := w.pending[i], Survivors(w.states, up);
    assert Matches(w.states, p);
    SurvivorFacts(w.states, up);
    if !p.external {
      assert w.states[p.slot] in s;
      var j :| 0 <= j < |s| && s[j] == w.states[p.slot];
      PlaceOf(s, j);
    }
  }

  /** What the queue still holds of a quote is what the quote has left. */
  lemma QuoteIsPending(external: seq<Quote>, o: Start, w: Walk, i: nat) returns (at: nat)
    requires AllLive(o.queue) && LotsOf(w.states, w.pending) == Rest(o.queue, w.filled)
    requires DistinctIds(w.pending) && QuotesKept(external, w.pending) && i < |external|
    requires Held(o.queue, Quoted(i)) == external[i].size
    requires Reduced(external, Tape(o.queue, w.filled))[i].size > 0
    ensures at < |w.pending| && w.pending[at].external && w.pending[at].index == i
    ensures w.pending[at].quantity == Reduced(external, Tape(o.queue, w.filled))[i].size
    ensures QuoteKept(external, w.pending[at])
  {
    EveryLotIsConserved(o.queue, w.filled, Quoted(i));
    if forall m :: 0 <= m < |w.pending| ==> IdOf(w.pending[m].external, w.pending[m].index) != Quoted(i) {
      HeldNever(w.states, w.pending, Quoted(i));
      assert false;
    }
    at :| 0 <= at < |w.pending| && IdOf(w.pending[at].external, w.pending[at].index) == Quoted(i);
    HeldOnce(w.states, w.pending, at);
    assert QuoteKept(external, w.pending[at]);
  }

  predicate SameLevel(a: Row, b: Row) { a.price == b.price && a.time == b.time }

  /** Leftovers of one price and one clock stand in the order of their numbers, by their new positions too. */
  ghost predicate RowsInTurn(exclude: Option<string>, after: seq<Row>) {
    forall j, k :: 0 <= j < k < |after| && !Excluded(after[j], exclude) && !Excluded(after[k], exclude) ==>
      SameLevel(after[j], after[k]) ==> TurnOf(after[j], j) <= TurnOf(after[k], k)
  }

  /** Row `a`, once at `was` and now at `now`, still stands on the same side of quote `b`. */
  predicate SameSide(a: Row, was: nat, now: nat, b: Quote, i: nat) {
    b.size > 0 && a.price == b.price && a.time == QuoteTime(b) ==>
      (TurnOf(a, was) <= QuoteTurn(b, i) <==> TurnOf(a, now) <= QuoteTurn(b, i))
  }

  /**
   Whether nothing overtakes: a leftover without a sequence number of its own is numbered by its
   new position from now on, and still stands where it stood.
   */
  ghost predicate InTurn(exclude: Option<string>, left: seq<Quote>, after: seq<Row>, origins: seq<nat>) {
    && RowsInTurn(exclude, after) && |origins| == |after|
    && forall j, i :: 0 <= j < |after| && !Excluded(after[j], exclude) && 0 <= i < |left| ==>
       SameSide(after[j], origins[j], j, left[i], i)
  }

  /** What a queued quote still holds is what the reduced quote offers. */
  lemma PendingQuoteIsLeft(external: seq<Quote>, o: Start, w: Walk, i: nat)
    requires AllLive(o.queue) && LotsOf(w.states, w.pending) == Rest(o.queue, w.filled)
    requires DistinctIds(w.pending) && QuotesKept(external, w.pending) && i < |w.pending| && w.pending[i].external
    requires PendingMatches(w)
    requires forall k :: 0 <= k < |external| ==> Held(o.queue, Quoted(k)) == external[k].size
    ensures var left, p := Reduced(external, Tape(o.queue, w.filled)), w.pending[i];
      && p.index < |left| && left[p.index].size == p.quantity > 0
      && left[p.index].price == p.price && QuoteTime(left[p.index]) == p.time
      && QuoteTurn(left[p.index], p.index) == p.sequence
  {
    var p := w.pending[i];
    assert Matches(w.states, p) && QuoteKept(external, p);
    EveryLotIsConserved(o.queue, w.filled, Quoted(p.index));
    HeldOnce(w.states, w.pending, i);
  }

  /** Where a queued row stands among the leftovers, and how it looks there. */
  lemma PendingRow(resting: seq<Row>, external: seq<Quote>, exclude: Option<string>, o: Start, w: Walk, i: nat)
    requires Stopped(resting, external, exclude, o, w) && i < |w.pending| && !w.pending[i].external
    ensures var s, p := Survivors(w.states, o.up), w.pending[i];
      var j := Place(s, p.index);
      && j < |s| && p.slot < |w.states| && s[j] == w.states[p.slot] && s[j].tradeable && Origins(s)[j] == p.index
      && !Excluded(RestingAfter(s)[j], exclude) && RestingAfter(s)[j].price == p.price
      && RestingAfter(s)[j].time == p.time
      && TurnOf(RestingAfter(s)[j], p.index) == p.sequence
      && Moved(s, p) == Item(false, j, p.price, p.time, TurnOf(RestingAfter(s)[j], j), p.quantity, j)
  {
    var s, p := Survivors(w.states, o.up), w.pending[i];
    StatesStayIncreasing(o, w);
    assert Matches(w.states, p);
    PendingIsHomed(o.up, w, i);
    var j := Place(s, p.index);
    var k := SurvivorReadsBackAt(resting, external, exclude, o, w, j);
    TouchedStamps(s[j], o.states[k], resting[s[j].index], exclude, j);
  }

  /** Every eligible leftover still queues. */
  lemma LeftoverIsPending(resting: seq<Row>, external: seq<Quote>, exclude: Option<string>, o: Start, w: Walk, j: nat)
    returns (i: nat)
    requires Stopped(resting, external, exclude, o, w) && j < |Survivors(w.states, o.up)|
    requires !Excluded(RestingAfter(Survivors(w.states, o.up))[j], exclude)
    ensures i < |w.pending| && !w.pending[i].external && Place(Survivors(w.states, o.up), w.pending[i].index) == j
  {
    var s := Survivors(w.states, o.up);
    StatesStayIncreasing(o, w);
    SurvivorFacts(w.states, o.up);
    var k := SurvivorReadsBackAt(resting, external, exclude, o, w, j);
    TouchedStamps(s[j], o.states[k], resting[s[j].index], exclude, j);
    i :| 0 <= i < |w.pending| && !w.pending[i].external && w.pending[i].slot == k;
    assert Matches(w.states, w.pending[i]);
    PlaceOf(s, j);
  }

  /** The leftovers of a plan and what it leaves of the quotes are in turn. */
  ghost predicate StandsInTurn(external: seq<Quote>, exclude: Option<string>, o: Start, w: Walk) {
    var s := Survivors(w.states, o.up);
    InTurn(exclude, Reduced(external, Tape(o.queue, w.filled)), RestingAfter(s), Origins(s))
  }

  /** Then no queued item overtakes another. */
  lemma MovedPair(resting: seq<Row>, external: seq<Quote>, exclude: Option<string>, o: Start, w: Walk, i: nat, j: nat)
    requires Stopped(resting, external, exclude, o, w) && Offers(o.queue, resting, external, exclude)
    requires StandsInTurn(external, exclude, o, w) && i < j < |w.pending|
    ensures var s := Survivors(w.states, o.up);
      Before(Moved(s, w.pending[i]), Moved(s, w.pending[j]), o.up)
  {
    hide Survivors, OthersSpent, Stamped, Offers, QuotesKept, RowsKept, Clocked, Traded;
    var s, p, q := Survivors(w.states, o.up), w.pending[i], w.pending[j];
    var left := Reduced(external, Tape(o.queue, w.filled));
    assert Before(p, q, o.up) by { assert ItemOrder(o.up)(p, q) && !ItemOrder(o.up)(q, p); }
    PendingSide(resting, external, exclude, o, w, i);
    PendingSide(resting, external, exclude, o, w, j);
    if !p.external && !q.external {
      RowsKeepOrder(resting, external, exclude, o, w, i, j);
    } else if !p.external {
      assert SameSide(RestingAfter(s)[Place(s, p.index)], p.index, Place(s, p.index), left[q.index], q.index);
    } else if !q.external {
      assert SameSide(RestingAfter(s)[Place(s, q.index)], q.index, Place(s, q.index), left[p.index], p.index);
    }
  }

  /** What is known of a queued item, row or quote. */
  lemma PendingSide(resting: seq<Row>, external: seq<Quote>, exclude: Option<string>, o: Start, w: Walk, i: nat)
    requires Stopped(resting, external, exclude, o, w) && Offers(o.queue, resting, external, exclude) && i < |w.pending|
    ensures var s, p, left := Survivors(w.states, o.up), w.pending[i], Reduced(external, Tape(o.queue, w.filled));
      && (p.external ==>
           && p.index < |left| && left[p.index].size == p.quantity > 0 && Moved(s, p) == p
           && left[p.index].price == p.price
           && QuoteTime(left[p.index]) == p.time && QuoteTurn(left[p.index], p.index) == p.sequence)
      && (!p.external ==>
           var j := Place(s, p.index);
           && j < |s| && Origins(s)[j] == p.index
           && !Excluded(RestingAfter(s)[j], exclude) && RestingAfter(s)[j].price == p.price
           && RestingAfter(s)[j].time == p.time
           && TurnOf(RestingAfter(s)[j], p.index) == p.sequence
           && Moved(s, p) == Item(false, j, p.price, p.time, TurnOf(RestingAfter(s)[j], j), p.quantity, j))
  {
    hide Survivors, OthersSpent, Stamped;
    if w.pending[i].external {
      PendingQuoteIsLeft(external, o, w, i);
    } else {
      PendingRow(resting, external, exclude, o, w, i);
    }
  }

  /** Two queued rows: their places among the leftovers are in the order of the queue. */
  lemma RowsKeepOrder(resting: seq<Row>, external: seq<Quote>, exclude: Option<string>, o: Start, w: Walk, i: nat,
                      j: nat)
    requires Stopped(resting, external, exclude, o, w) && i < |w.pending| && j < |w.pending| && !w.pending[i].external
    requires !w.pending[j].external
    requires Before(w.pending[i], w.pending[j], o.up)
    ensures var s := Survivors(w.states, o.up);
      Place(s, w.pending[i].index) < Place(s, w.pending[j].index) < |s|
  {
    hide OthersSpent, Stamped, RowsKept, Clocked, Traded, QuotesKept;
    var s, p, q := Survivors(w.states, o.up), w.pending[i], w.pending[j];
    hide Survivors;
    PendingRow(resting, external, exclude, o, w, i);
    PendingRow(resting, external, exclude, o, w, j);
    assert Matches(w.states, p) && Matches(w.states, q);
    assert Increasing(w.states) by { StatesStayIncreasing(o, w); }
    SurvivorFacts(w.states, o.up);
    var a, b := Place(s, p.index), Place(s, q.index);
    assert a != b;
    assert Sorting.Strict(SurvivorOrder(o.up), s);
  }

  lemma MovedStaysStrict(resting: seq<Row>, external: seq<Quote>, exclude: Option<string>, o: Start, w: Walk)
    requires Stopped(resting, external, exclude, o, w) && Offers(o.queue, resting, external, exclude)
    requires StandsInTurn(external, exclude, o, w)
    ensures Sorting.Strict(ItemOrder(o.up), MovedAll(Survivors(w.states, o.up), w.pending))
  {
    hide Stopped, Offers, StandsInTurn, Survivors;
    var s, le := Survivors(w.states, o.up), ItemOrder(o.up);
    var moved := MovedAll(s, w.pending);
    forall i, j | 0 <= i < j < |moved|
      ensures le(moved[i], moved[j]) && !le(moved[j], moved[i])
    {
      MovedPair(resting, external, exclude, o, w, i, j);
    }
  }

  /** Where a row or quote of the resumed book came from. */
  lemma ReopenedItemWasPending(resting: seq<Row>, external: seq<Quote>, exclude: Option<string>, o: Start, w: Walk,
                               x: Item)
    requires Stopped(resting, external, exclude, o, w) && Offers(o.queue, resting, external, exclude)
    requires FromBook(x, ReadBackAll(Survivors(w.states, o.up)), Reduced(external, Tape(o.queue, w.filled)))
    ensures x in MovedAll(Survivors(w.states, o.up), w.pending)
  {
    var s := Survivors(w.states, o.up);
    if x.external {
      var at := QuoteIsPending(external, o, w, x.index);
      assert MovedAll(s, w.pending)[at] == x;
    } else {
      ReopenedRowIsLeft(resting, external, exclude, o, w, x);
      var i := LeftoverIsPending(resting, external, exclude, o, w, x.slot);
      PendingRow(resting, external, exclude, o, w, i);
      assert MovedAll(s, w.pending)[i] == x;
    }
  }

  lemma ReopenedRowIsLeft(resting: seq<Row>, external: seq<Quote>, exclude: Option<string>, o: Start, w: Walk, x: Item)
    requires Stopped(resting, external, exclude, o, w) && !x.external
    requires var b := ReadBackAll(Survivors(w.states, o.up));
      x.slot < |b| && b[x.slot].tradeable && x == RowItem(b[x.slot], x.slot)
    ensures !Excluded(RestingAfter(Survivors(w.states, o.up))[x.slot], exclude)
  {
    var s := Survivors(w.states, o.up);
    StatesStayIncreasing(o, w);
    var k := SurvivorReadsBackAt(resting, external, exclude, o, w, x.slot);
    TouchedStamps(s[x.slot], o.states[k], resting[s[x.slot].index], exclude, x.slot);
  }

  lemma PendingQuoteReopens(resting: seq<Row>, external: seq<Quote>, exclude: Option<string>, o: Start, w: Walk, i: nat,
                            b: Opened)
    requires Stopped(resting, external, exclude, o, w) && Offers(o.queue, resting, external, exclude)
    requires i < |w.pending| && w.pending[i].external
    requires var left := Reduced(external, Tape(o.queue, w.filled));
      QuotesOf(left, |left|).Success? && forall k :: 0 <= k < |QuotesOf(left, |left|).value| ==>
        QuoteItem(QuotesOf(left, |left|).value[k]) in b.items
    ensures w.pending[i] in b.items
  {
    var p := w.pending[i];
    var left := Reduced(external, Tape(o.queue, w.filled));
    PendingQuoteIsLeft(external, o, w, i);
    assert QuoteKept(external, p);
    StatesReadQuotes(left, |left|);
    var k := StatesCoverQuotes(left, |left|, p.index);
    assert ReadQuote(left[p.index], p.index) == Keep(QuotesOf(left, |left|).value[k]);
    assert QuoteItem(QuotesOf(left, |left|).value[k]) in b.items;
  }

  /** Every queued item is offered again by the leftovers. */
  lemma PendingItemReopens(resting: seq<Row>, external: seq<Quote>, exclude: Option<string>, o: Start, w: Walk, i: nat,
                           b: Opened)
    requires Stopped(resting, external, exclude, o, w) && Offers(o.queue, resting, external, exclude) && i < |w.pending|
    requires OpenBook(o.up, RestingAfter(Survivors(w.states, o.up)), Reduced(external, Tape(o.queue, w.filled)),
                      exclude) == Success(b)
    requires b.states == ReadBackAll(Survivors(w.states, o.up))
    ensures Moved(Survivors(w.states, o.up), w.pending[i]) in b.items
  {
    var s, p := Survivors(w.states, o.up), w.pending[i];
    OpenedItems(o.up, RestingAfter(s), Reduced(external, Tape(o.queue, w.filled)), exclude);
    if p.external {
      PendingQuoteReopens(resting, external, exclude, o, w, i, b);
    } else {
      PendingRow(resting, external, exclude, o, w, i);
      hide OpenBook, Survivors, ReadRow, Stopped, Offers;
      var j := Place(s, p.index);
      assert RowItem(b.states[j], j) in b.items;
    }
  }

  lemma ReducedQuotesOpen(external: seq<Quote>, queue: seq<Lot<Id>>, n: nat)
    requires AllLive(queue) && QuotesOf(external, |external|).Success?
    requires forall i :: 0 <= i < |external| ==> Held(queue, Quoted(i)) == external[i].size
    ensures var left := Reduced(external, Tape(queue, n)); QuotesOf(left, |left|).Success?
  {
    forall i | 0 <= i < |external|
      ensures SharesOf(Tape(queue, n), Quoted(i)) <= external[i].size
    {
      EveryLotIsConserved(queue, n, Quoted(i));
    }
    ReducedQuotesRead(external, Tape(queue, n), |external|);
  }

  lemma OpensWhenRead(up: bool, rows: seq<Row>, external: seq<Quote>, exclude: Option<string>, states: seq<State>)
    requires |rows| <= MAX_ROWS && |external| <= MAX_ROWS
    requires StatesOf(rows, exclude, |rows|) == Success(states) && QuotesOf(external, |external|).Success?
    ensures OpenBook(up, rows, external, exclude).Success?
    ensures OpenBook(up, rows, external, exclude).value.states == states
  {
  }

  lemma SurvivorsFit(o: Start, w: Walk, n: nat)
    requires RowsKept(o, w.states) && Increasing(o.states) && |o.states| <= n
    ensures |Survivors(w.states, o.up)| <= n
  {
    StatesStayIncreasing(o, w);
    SurvivorFacts(w.states, o.up);
  }

  /** The leftovers are always an acceptable book. */
  lemma LeftoversOpen(resting: seq<Row>, external: seq<Quote>, exclude: Option<string>, o: Start, w: Walk)
    requires Stopped(resting, external, exclude, o, w) && Offers(o.queue, resting, external, exclude)
    requires |resting| <= MAX_ROWS && |external| <= MAX_ROWS && QuotesOf(external, |external|).Success?
    requires |o.states| <= |resting|
    ensures var s := Survivors(w.states, o.up);
      var b := OpenBook(o.up, RestingAfter(s), Reduced(external, Tape(o.queue, w.filled)), exclude);
      b.Success? && b.value.states == ReadBackAll(s)
  {
    var s := Survivors(w.states, o.up);
    SurvivorsFit(o, w, MAX_ROWS);
    SurvivorsReadBack(resting, external, exclude, o, w);
    ReducedQuotesOpen(external, o.queue, w.filled);
    OpensWhenRead(o.up, RestingAfter(s), Reduced(external, Tape(o.queue, w.filled)), exclude, ReadBackAll(s));
  }

  /** A lot as the next plan sees it: an iceberg without a display size is cut anew, by what it shows at the time. */
  function Recut(resting: seq<Row>, l: Lot<Id>): Lot<Id> {
    match l.id
    case Quoted(_) => l
    case Resting(i) =>
      if i < |resting| && !HasDisplay(resting[i]) then l.(refills := Refills(Sum(l.refills), l.qty))
      else l
  }

  function RecutAll(resting: seq<Row>, q: seq<Lot<Id>>): (r: seq<Lot<Id>>)
    ensures |r| == |q| && forall i :: 0 <= i < |r| ==> r[i] == Recut(resting, q[i])
  {
    seq(|q|, i requires 0 <= i < |q| => Recut(resting, q[i]))
  }

  /** Who stands where in a queue. */
  function Owners<T>(q: seq<Lot<T>>): (r: seq<T>)
    ensures |r| == |q| && forall i :: 0 <= i < |r| ==> r[i] == q[i].id
  {
    seq(|q|, i requires 0 <= i < |q| => q[i].id)
  }

  /** The queued items and the reopened ones are the same, in one order or another. */
  lemma ReopensTheSame(resting: seq<Row>, external: seq<Quote>, exclude: Option<string>, o: Start, w: Walk, b: Opened)
    requires Stopped(resting, external, exclude, o, w) && Offers(o.queue, resting, external, exclude)
    requires OpenBook(o.up, RestingAfter(Survivors(w.states, o.up)), Reduced(external, Tape(o.queue, w.filled)),
                      exclude) == Success(b)
    requires b.states == ReadBackAll(Survivors(w.states, o.up))
    ensures forall x :: x in MovedAll(Survivors(w.states, o.up), w.pending) <==> x in b.items
  {
    var s := Survivors(w.states, o.up);
    var left, moved := Reduced(external, Tape(o.queue, w.filled)), MovedAll(s, w.pending);
    OpenedItems(o.up, RestingAfter(s), left, exclude);
    forall x
      ensures x in moved <==> x in b.items
    {
      if x in moved {
        var i :| 0 <= i < |moved| && moved[i] == x;
        PendingItemReopens(resting, external, exclude, o, w, i, b);
      }
      if x in b.items {
        assert FromBook(x, b.states, left);
        ReopenedItemWasPending(resting, external, exclude, o, w, x);
      }
    }
  }

  /**
   If all leftovers are in turn, the resumed queue is the interrupted one, cut anew where no display
   size was given.
   */
  lemma ReplansTheRest(resting: seq<Row>, external: seq<Quote>, exclude: Option<string>, o: Start, w: Walk)
    requires Stopped(resting, external, exclude, o, w) && Offers(o.queue, resting, external, exclude)
    requires |resting| <= MAX_ROWS && |external| <= MAX_ROWS && QuotesOf(external, |external|).Success?
    requires |o.states| <= |resting|
    requires StandsInTurn(external, exclude, o, w)
    ensures var s := Survivors(w.states, o.up);
      var b := OpenBook(o.up, RestingAfter(s), Reduced(external, Tape(o.queue, w.filled)), exclude);
      b.Success? && Relabel(Name(Origins(s)), QueueOf(b.value)) == RecutAll(resting, Rest(o.queue, w.filled))
  {
    var s := Survivors(w.states, o.up);
    var left := Reduced(external, Tape(o.queue, w.filled));
    LeftoversOpen(resting, external, exclude, o, w);
    var b := OpenBook(o.up, RestingAfter(s), left, exclude).value;
    var moved := MovedAll(s, w.pending);
    OpenedItems(o.up, RestingAfter(s), left, exclude);
    MovedStaysStrict(resting, external, exclude, o, w);
    StrictMeansDistinct(o.up, moved);
    StrictMeansDistinct(o.up, b.items);
    ReopensTheSame(resting, external, exclude, o, w, b);
    Sorting.SameElements(moved, b.items);
    Sorting.OrderIsUnique(ItemOrder(o.up), moved, b.items);
    MovedLots(resting, external, exclude, o, w);
  }

  /** A reopened item that belongs to the same row or quote as a queued one is that item, moved. */
  lemma SameOwnerSameItem(resting: seq<Row>, external: seq<Quote>, exclude: Option<string>, o: Start, w: Walk, x: Item,
                          m: nat)
    requires Stopped(resting, external, exclude, o, w) && m < |w.pending|
    requires x in MovedAll(Survivors(w.states, o.up), w.pending)
    requires Name(Origins(Survivors(w.states, o.up)))(IdOf(x.external, x.index))
      == IdOf(w.pending[m].external, w.pending[m].index)
    ensures x == Moved(Survivors(w.states, o.up), w.pending[m])
  {
    var s := Survivors(w.states, o.up);
    var i :| 0 <= i < |w.pending| && Moved(s, w.pending[i]) == x;
    if !w.pending[i].external { PendingRow(resting, external, exclude, o, w, i); }
    assert w.pending[i].external == w.pending[m].external && w.pending[i].index == w.pending[m].index;
    assert i == m;
  }

  /** And if the resumed queue has the same owners in the same places, then all leftovers were in turn. */
  lemma OwnersTellTurns(resting: seq<Row>, external: seq<Quote>, exclude: Option<string>, o: Start, w: Walk)
    requires Stopped(resting, external, exclude, o, w) && Offers(o.queue, resting, external, exclude)
    requires |resting| <= MAX_ROWS && |external| <= MAX_ROWS && QuotesOf(external, |external|).Success?
    requires |o.states| <= |resting|
    requires var s := Survivors(w.states, o.up);
      var b := OpenBook(o.up, RestingAfter(s), Reduced(external, Tape(o.queue, w.filled)), exclude);
      b.Success? && Owners(Relabel(Name(Origins(s)), QueueOf(b.value))) == Owners(Rest(o.queue, w.filled))
    ensures StandsInTurn(external, exclude, o, w)
  {
    var s := Survivors(w.states, o.up);
    var left := Reduced(external, Tape(o.queue, w.filled));
    LeftoversOpen(resting, external, exclude, o, w);
    var b := OpenBook(o.up, RestingAfter(s), left, exclude).value;
    var moved := MovedAll(s, w.pending);
    OpenedItems(o.up, RestingAfter(s), left, exclude);
    ReopensTheSame(resting, external, exclude, o, w, b);
    var again, rest := Relabel(Name(Origins(s)), QueueOf(b)), LotsOf(w.states, w.pending);
    assert |again| == |rest| by { assert |Owners(again)| == |Owners(rest)|; }
    forall m | 0 <= m < |moved|
      ensures b.items[m] == moved[m]
    {
      assert Owners(again)[m] == Owners(rest)[m];
      assert b.items[m] in moved;
      SameOwnerSameItem(resting, external, exclude, o, w, b.items[m], m);
    }
    assert b.items == moved;
    StrictTellsTurns(resting, external, exclude, o, w);
  }

  lemma StrictTellsTurns(resting: seq<Row>, external: seq<Quote>, exclude: Option<string>, o: Start, w: Walk)
    requires Stopped(resting, external, exclude, o, w) && Offers(o.queue, resting, external, exclude)
    requires Sorting.Strict(ItemOrder(o.up), MovedAll(Survivors(w.states, o.up), w.pending))
    ensures StandsInTurn(external, exclude, o, w)
  {
    hide Offers, Survivors, SameSide, Stopped;
    var s := Survivors(w.states, o.up);
    var left, after := Reduced(external, Tape(o.queue, w.filled)), RestingAfter(s);
    forall j, k | 0 <= j < k < |after| && !Excluded(after[j], exclude) && !Excluded(after[k], exclude)
             && SameLevel(after[j], after[k])
      ensures TurnOf(after[j], j) <= TurnOf(after[k], k)
    {
      StrictRows(resting, external, exclude, o, w, j, k);
    }
    forall j, i | 0 <= j < |after| && !Excluded(after[j], exclude) && 0 <= i < |left|
      ensures SameSide(after[j], Origins(s)[j], j, left[i], i)
    {
      StrictSides(resting, external, exclude, o, w, j, i);
    }
  }

  /** The queue and its moved copy agree on who comes first. */
  lemma SameOrder(o: Start, w: Walk, i: nat, j: nat)
    requires Lined(o.up, w) && Sorting.Strict(ItemOrder(o.up), MovedAll(Survivors(w.states, o.up), w.pending))
    requires i < |w.pending| && j < |w.pending| && i != j
    ensures var s := Survivors(w.states, o.up);
      Before(w.pending[i], w.pending[j], o.up) <==> Before(Moved(s, w.pending[i]), Moved(s, w.pending[j]), o.up)
  {
    hide PendingMatches, DistinctIds, OthersSpent, Stamped, Moved, Survivors;
    var s := Survivors(w.states, o.up);
    var moved, le := MovedAll(s, w.pending), ItemOrder(o.up);
    assert i < j ==> le(w.pending[i], w.pending[j]) && !le(w.pending[j], w.pending[i]);
    assert i < j ==> le(moved[i], moved[j]) && !le(moved[j], moved[i]);
    assert j < i ==> le(w.pending[j], w.pending[i]) && !le(w.pending[i], w.pending[j]);
    assert j < i ==> le(moved[j], moved[i]) && !le(moved[i], moved[j]);
  }

  lemma StrictRows(resting: seq<Row>, external: seq<Quote>, exclude: Option<string>, o: Start, w: Walk, j: nat, k: nat)
    requires Stopped(resting, external, exclude, o, w)
    requires Sorting.Strict(ItemOrder(o.up), MovedAll(Survivors(w.states, o.up), w.pending))
    requires var after := RestingAfter(Survivors(w.states, o.up));
      j < k < |after| && !Excluded(after[j], exclude) && !Excluded(after[k], exclude) && SameLevel(after[j], after[k])
    ensures var after := RestingAfter(Survivors(w.states, o.up)); TurnOf(after[j], j) <= TurnOf(after[k], k)
  {
    hide RowsKept, QuotesKept, Traded, Clocked, PendingMatches, DistinctIds, OthersSpent, Stamped, Survivors;
    var a := LeftoverIsPending(resting, external, exclude, o, w, j);
    var b := LeftoverIsPending(resting, external, exclude, o, w, k);
    PendingRow(resting, external, exclude, o, w, a);
    PendingRow(resting, external, exclude, o, w, b);
    SameOrder(o, w, a, b);
    if Before(w.pending[b], w.pending[a], o.up) {
      RowsKeepOrder(resting, external, exclude, o, w, b, a);
      assert false;
    }
    SameOrder(o, w, b, a);
  }

  lemma StrictSides(resting: seq<Row>, external: seq<Quote>, exclude: Option<string>, o: Start, w: Walk, j: nat, i: nat)
    requires Stopped(resting, external, exclude, o, w) && Offers(o.queue, resting, external, exclude)
    requires Sorting.Strict(ItemOrder(o.up), MovedAll(Survivors(w.states, o.up), w.pending))
    requires j < |Survivors(w.states, o.up)| && !Excluded(RestingAfter(Survivors(w.states, o.up))[j], exclude)
    requires i < |external|
    ensures var s := Survivors(w.states, o.up);
      SameSide(RestingAfter(s)[j], Origins(s)[j], j, Reduced(external, Tape(o.queue, w.filled))[i], i)
  {
    hide RowsKept, Clocked, PendingMatches, OthersSpent, Stamped, Survivors;
    var left := Reduced(external, Tape(o.queue, w.filled));
    if left[i].size > 0 {
      var a := LeftoverIsPending(resting, external, exclude, o, w, j);
      var b := QuoteIsPending(external, o, w, i);
      PendingSide(resting, external, exclude, o, w, a);
      PendingSide(resting, external, exclude, o, w, b);
      SameOrder(o, w, a, b);
    }
  }

  lemma ExplicitStamps(resting: seq<Row>, external: seq<Quote>, exclude: Option<string>, o: Start, w: Walk, j: nat)
    requires Stopped(resting, external, exclude, o, w) && Explicit(resting) && j < |Survivors(w.states, o.up)|
    ensures var s := Survivors(w.states, o.up); var row := RestingAfter(s)[j];
      row.price == s[j].price && row.time == s[j].time && forall i: nat :: TurnOf(row, i) == s[j].sequence
  {
    hide Lined, Traded, QuotesKept, Clocked, Survivors;
    var s := Survivors(w.states, o.up);
    StatesStayIncreasing(o, w);
    var k := SurvivorReadsBackAt(resting, external, exclude, o, w, j);
    TouchedStamps(s[j], o.states[k], resting[s[j].index], exclude, j);
  }

  /** Rows with numbers of their own are always in turn. */
  lemma ExplicitStandsInTurn(resting: seq<Row>, external: seq<Quote>, exclude: Option<string>, o: Start, w: Walk)
    requires Stopped(resting, external, exclude, o, w) && Explicit(resting)
    ensures StandsInTurn(external, exclude, o, w)
  {
    hide Lined, Traded, QuotesKept, Clocked, Survivors, Explicit, TurnOf, Excluded;
    var s := Survivors(w.states, o.up);
    var after := RestingAfter(s);
    StatesStayIncreasing(o, w);
    SurvivorFacts(w.states, o.up);
    hide RowsKept;
    forall j | 0 <= j < |after|
      ensures after[j].price == s[j].price && after[j].time == s[j].time
      ensures forall i: nat :: TurnOf(after[j], i) == s[j].sequence
    {
      ExplicitStamps(resting, external, exclude, o, w, j);
    }
    forall j, k | 0 <= j < k < |after| && SameLevel(after[j], after[k])
      ensures TurnOf(after[j], j) <= TurnOf(after[k], k)
    {
      assert SurvivorOrder(o.up)(s[j], s[k]);
    }
  }

  lemma StrictMeansDistinct(up: bool, items: seq<Item>)
    requires Sorting.Strict(ItemOrder(up), items)
    ensures Sorting.Distinct(items) && Sorting.Ordered(ItemOrder(up), items)
  {
    forall i, j | 0 <= i < j < |items|
      ensures items[i] != items[j]
    {
      assert ItemOrder(up)(items[i], items[j]) && !ItemOrder(up)(items[j], items[i]);
    }
  }

  lemma MovedLots(resting: seq<Row>, external: seq<Quote>, exclude: Option<string>, o: Start, w: Walk)
    requires Stopped(resting, external, exclude, o, w)
    ensures var s := Survivors(w.states, o.up);
      Relabel(Name(Origins(s)), LotsOf(ReadBackAll(s), MovedAll(s, w.pending)))
        == RecutAll(resting, LotsOf(w.states, w.pending))
  {
    var s := Survivors(w.states, o.up);
    StatesStayIncreasing(o, w);
    SurvivorFacts(w.states, o.up);
    var a := Relabel(Name(Origins(s)), LotsOf(ReadBackAll(s), MovedAll(s, w.pending)));
    var lots := LotsOf(w.states, w.pending);
    forall i | 0 <= i < |w.pending|
      ensures a[i] == Recut(resting, lots[i])
    {
      MovedLot(resting, external, exclude, o, w, i);
    }
  }

  lemma MovedLot(resting: seq<Row>, external: seq<Quote>, exclude: Option<string>, o: Start, w: Walk, i: nat)
    requires Stopped(resting, external, exclude, o, w) && i < |w.pending| && Increasing(w.states)
    ensures var s := Survivors(w.states, o.up);
      var lot := LotOf(ReadBackAll(s), Moved(s, w.pending[i]));
      Lot(Name(Origins(s))(lot.id), lot.price, lot.qty, lot.refills) == Recut(resting, LotOf(w.states, w.pending[i]))
  {
    hide Survivors, Place, SameRow, ReadRow, Refills, Clocked, Traded;
    var p, s := w.pending[i], Survivors(w.states, o.up);
    assert Matches(w.states, p);
    if !p.external {
      PendingIsHomed(o.up, w, i);
      var j := Place(s, p.index);
      var k := SurvivorReadsBackAt(resting, external, exclude, o, w, j);
      TouchedDisplay(s[j], o.states[k], resting[s[j].index], exclude, j);
      RefillsShowAll(s[j].hidden, s[j].display);
      assert Origins(s)[j] == p.index;
    }
  }
}
