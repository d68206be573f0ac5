/**
 What a plan leaves behind. The surviving rows are written back with new stamps, in book order, and
 a later plan reads them again at new positions. Here is what the rows look like then: they always
 pass validation again, and what each shows and hides is known.
 */
module Residue {
  import opened Wrappers
  import opened Numbers
  import opened Liquidity
  import opened ShareQueue
  import opened PlanWalk
  import opened Opening
  import Sorting

  predicate SurvivorBefore(a: State, b: State, up: bool) {
    if a.price != b.price then (if up then a.price < b.price else a.price > b.price)
    else if a.time != b.time then a.time < b.time
    else if a.sequence != b.sequence then a.sequence < b.sequence
    else a.index < b.index
  }

  function SurvivorOrder(up: bool): (State, State) -> bool { (a, b) => !SurvivorBefore(b, a, up) }

  lemma SurvivorOrderIsTotal(up: bool)
    ensures Sorting.TotalPreorder(SurvivorOrder(up))
  {
  }

  /** A copy of a resting record with the live quantities. */
  function CopyOrder(s: State, qty: nat, hidden: nat): Row {
    s.order.(price := s.price, qty := qty,
             hiddenQty := if s.hadHidden || hidden > 0 then Some(hidden) else s.order.hiddenQty,
             time := if s.revealed then s.time else s.order.time,
             sequence := if s.revealed then Some(s.sequence) else s.order.sequence)
  }

  function Alive(states: seq<State>): seq<State> {
    if states == [] then []
    else
      var last := states[|states| - 1];
      Alive(states[..|states| - 1]) + if last.qty > 0 || last.hidden > 0 then [last] else []
  }

  function Survivors(states: seq<State>, up: bool): seq<State> {
    Sorting.SortBy(SurvivorOrder(up), Alive(states))
  }

  function RestingAfter(survivors: seq<State>): (r: seq<Row>)
    ensures |r| == |survivors|
  {
    seq(|survivors|, j requires 0 <= j < |survivors| => CopyOrder(survivors[j], survivors[j].qty, survivors[j].hidden))
  }

  function Origins(survivors: seq<State>): (r: seq<nat>)
    ensures |r| == |survivors|
  {
    seq(|survivors|, j requires 0 <= j < |survivors| => survivors[j].index)
  }

  predicate Increasing(states: seq<State>) {
    forall j, k :: 0 <= j < k < |states| ==> states[j].index < states[k].index
  }

  predicate DistinctRows(states: seq<State>) {
    forall j, k :: 0 <= j < k < |states| ==> states[j].index != states[k].index
  }

  lemma {:induction false} AliveFacts(states: seq<State>)
    requires Increasing(states)
    ensures Increasing(Alive(states)) && |Alive(states)| <= |states|
    ensures forall s :: s in Alive(states) <==> s in states && (s.qty > 0 || s.hidden > 0)
  {
    if states != [] {
      var n := |states| - 1;
      assert states == states[..n] + [states[n]];
      AliveFacts(states[..n]);
    }
  }

  lemma SurvivorFacts(states: seq<State>, up: bool)
    requires Increasing(states)
    ensures Sorting.Strict(SurvivorOrder(up), Survivors(states, up)) && DistinctRows(Survivors(states, up))
    ensures |Survivors(states, up)| <= |states|
    ensures forall s :: s in Survivors(states, up) <==> s in states && (s.qty > 0 || s.hidden > 0)
  {
    var a, b := Alive(states), Survivors(states, up);
    AliveFacts(states);
    SurvivorOrderIsTotal(up);
    Sorting.SortIsOrderedPermutation(SurvivorOrder(up), a);
    Sorting.PermutationKeepsMembers(a, b);
    forall i, j | 0 <= i < j < |a|
      ensures a[i] != a[j]
    {
      assert a[i].index < a[j].index;
    }
    Sorting.PermutationStaysDistinct(a, b);
    DistinctRowsSurvive(a, b);
  }

  lemma DistinctRowsSurvive(a: seq<State>, b: seq<State>)
    requires Increasing(a) && Sorting.Distinct(b) && forall s :: s in b ==> s in a
    ensures DistinctRows(b)
  {
    forall i, j | 0 <= i < j < |b|
      ensures b[i].index != b[j].index
    {
      assert b[i] in b && b[j] in b && b[i] != b[j];
    }
  }

  /** Every row that shows shares carries its own sequence number. */
  predicate Explicit(rows: seq<Row>) {
    forall i :: 0 <= i < |rows| && rows[i].qty != 0 ==> rows[i].sequence.Some?
  }

  predicate HasDisplay(row: Row) { row.displayQty.Some? && row.displayQty.value > 0 }

  /** The simplest thing to check before a plan is resumed: no sequence numbers or display sizes left to defaults. */
  predicate Replannable(rows: seq<Row>) {
    forall i :: 0 <= i < |rows| && rows[i].qty != 0 ==>
      rows[i].sequence.Some? && (HiddenOf(rows[i]) > 0 ==> HasDisplay(rows[i]))
  }

  /** How survivor `s` reads at its new position. */
  function ReadBack(s: State, j: nat): State {
    var copy := CopyOrder(s, s.qty, s.hidden);
    State(j, copy, s.price, s.time, TurnOf(copy, j), s.qty, s.hidden,
          s.hadHidden || s.hidden > 0, if HasDisplay(s.order) then s.order.displayQty.value
            else s.qty, s.tradeable, false)
  }

  function ReadBackAll(survivors: seq<State>): (r: seq<State>)
    ensures |r| == |survivors| && forall j :: 0 <= j < |r| ==> r[j] == ReadBack(survivors[j], j)
  {
    seq(|survivors|, j requires 0 <= j < |survivors| => ReadBack(survivors[j], j))
  }

  /** A state that the walk may have touched, of a row that was read as `t`. */
  ghost predicate Touched(s: State, t: State, row: Row, exclude: Option<string>) {
    ReadRow(row, t.index, exclude) == Keep(t) && SameRow(s, t) && s.qty > 0
  }

  lemma SmallerNotional(a: int, b: int, p: int)
    requires 0 <= a <= b && p > 0 && Notional(b, p) <= MAX_SAFE
    ensures Notional(a, p) <= MAX_SAFE && a <= MAX_SAFE
  {
    assert (b - a) * p >= 0 && b * (p - 1) >= 0;
  }

  /** The checks that a row passed, it passes again with less, whatever it leaves to defaults. */
  lemma TouchedReadsBack(s: State, t: State, row: Row, exclude: Option<string>, j: nat)
    requires Touched(s, t, row, exclude)
    ensures ReadRow(CopyOrder(s, s.qty, s.hidden), j, exclude) == Keep(ReadBack(s, j))
  {
    hide Notional;
    var copy := CopyOrder(s, s.qty, s.hidden);
    SmallerNotional(s.qty + s.hidden, t.qty + t.hidden, t.price);
    assert copy.account == row.account && copy.qty == s.qty && HiddenOf(copy) == s.hidden;
    assert copy.price == s.price == t.price;
    assert copy.qty + HiddenOf(copy) == s.qty + s.hidden;
    assert Notional(copy.qty + HiddenOf(copy), copy.price) <= MAX_SAFE;
  }

  /** What a touched row shows next, and what it shows after being read back. */
  lemma TouchedDisplay(s: State, t: State, row: Row, exclude: Option<string>, j: nat)
    requires Touched(s, t, row, exclude)
    ensures s.order == row && s.display == (if HasDisplay(row) then row.displayQty.value else row.qty) && s.display > 0
    ensures ReadBack(s, j).hidden == s.hidden && ReadBack(s, j).display == if HasDisplay(row) then s.display else s.qty
  {
  }

  /** What a leftover row tells about its state: its clock, and the numbers by which it stood and will stand. */
  lemma TouchedStamps(s: State, t: State, row: Row, exclude: Option<string>, j: nat)
    requires Touched(s, t, row, exclude)
    ensures var copy := CopyOrder(s, s.qty, s.hidden);
      && copy.price == s.price && copy.time == s.time && TurnOf(copy, s.index) == s.sequence
      && (Excluded(copy, exclude) <==> !s.tradeable)
      && (row.sequence.Some? ==> copy.sequence.Some?)
  {
  }

  lemma NothingToRefill(display: nat)
    ensures Refills(0, display) == []
  {
  }

  lemma {:induction false} RowsReadBack(rows: seq<Row>, exclude: Option<string>, expected: seq<State>, n: nat)
    requires n <= |rows| == |expected|
    requires forall j :: 0 <= j < n ==> ReadRow(rows[j], j, exclude) == Keep(expected[j])
    ensures StatesOf(rows, exclude, n) == Success(expected[..n])
  {
    if n > 0 {
      RowsReadBack(rows, exclude, expected, n - 1);
      assert expected[..n] == expected[..n - 1] + [expected[n - 1]];
    }
  }

  /** The quotes after their traded shares are gone; a used-up quote stays with size zero. */
  function Reduced(external: seq<Quote>, tape: seq<Share<Id>>): (r: seq<Quote>)
    ensures |r| == |external|
    ensures forall i :: 0 <= i < |r| ==> r[i] == external[i].(size := external[i].size - SharesOf(tape, Quoted(i)))
  {
    seq(|external|, i requires 0 <= i < |external| =>
      external[i].(size := external[i].size - SharesOf(tape, Quoted(i))))
  }

  lemma {:induction false} ReducedQuotesRead(external: seq<Quote>, tape: seq<Share<Id>>, n: nat)
    requires n <= |external| && QuotesOf(external, n).Success?
    requires forall i :: 0 <= i < n ==> SharesOf(tape, Quoted(i)) <= external[i].size
    ensures QuotesOf(Reduced(external, tape), n).Success?
  {
    if n > 0 {
      ReducedQuotesRead(external, tape, n - 1);
      var i := n - 1;
      if Reduced(external, tape)[i].size > 0 {
        assert ReadQuote(external[i], i).Keep?;
        SmallerNotional(Reduced(external, tape)[i].size, external[i].size, external[i].price);
      }
    }
  }

  lemma {:induction false} HeldOnce(states: seq<State>, items: seq<Item>, i: nat)
    requires DistinctIds(items) && i < |items|
    ensures Held(LotsOf(states, items), IdOf(items[i].external, items[i].index)) == Shares(LotOf(states, items[i]))
  {
    var id := IdOf(items[i].external, items[i].index);
    assert LotsOf(states, items)[1..] == LotsOf(states, items[1..]);
    assert DistinctIds(items[1..]);
    if i == 0 {
      HeldNever(states, items[1..], id);
    } else {
      HeldOnce(states, items[1..], i - 1);
    }
  }

  lemma {:induction false} HeldNever(states: seq<State>, items: seq<Item>, id: Id)
    requires forall i :: 0 <= i < |items| ==> IdOf(items[i].external, items[i].index) != id
    ensures Held(LotsOf(states, items), id) == 0
  {
    if items != [] {
      assert LotsOf(states, items)[1..] == LotsOf(states, items[1..]);
      HeldNever(states, items[1..], id);
    }
  }

  /** Which row of the first book each lot of the resumed queue belongs to. */
  function Name(origins: seq<nat>): Id -> Id {
    (id: Id) => match id
      case Resting(j) => if j < |origins| then Resting(origins[j]) else id
      case Quoted(_) => id
  }

  /** The first plan's facts that a resumption relies on. */
  ghost predicate Stopped(resting: seq<Row>, external: seq<Quote>, exclude: Option<string>, o: Start, w: Walk) {
    && o.external == external && Good(o, w)
    && ReadsRows(o.states, resting, exclude, |resting|)
    && (forall k :: 0 <= k < |w.states| && !o.states[k].tradeable ==> w.states[k].qty > 0)
  }

  lemma StatesStayIncreasing(o: Start, w: Walk)
    requires RowsKept(o, w.states) && Increasing(o.states)
    ensures Increasing(w.states)
  {
    forall j, k | 0 <= j < k < |w.states|
      ensures w.states[j].index < w.states[k].index
    {
      assert SameRow(w.states[j], o.states[j]) && SameRow(w.states[k], o.states[k]);
    }
  }

  /** Whatever is left of a row shows shares. */
  lemma SurvivorIsTouched(resting: seq<Row>, external: seq<Quote>, exclude: Option<string>, o: Start, w: Walk, k: nat)
    requires Stopped(resting, external, exclude, o, w) && k < |w.states|
    requires w.states[k].qty > 0 || w.states[k].hidden > 0
    ensures o.states[k].index < |resting| && o.states[k].index == w.states[k].index
    ensures Touched(w.states[k], o.states[k], resting[o.states[k].index], exclude)
    ensures w.states[k].tradeable ==> Queued(w.pending, k)
  {
    assert ReadRow(resting[o.states[k].index], o.states[k].index, exclude) == Keep(o.states[k]);
    assert SameRow(w.states[k], o.states[k]);
    if w.states[k].tradeable {
      assert Queued(w.pending, k);
      var i :| 0 <= i < |w.pending| && !w.pending[i].external && w.pending[i].slot == k;
      assert Matches(w.states, w.pending[i]);
    }
  }

  lemma SurvivorReadsBackAt(resting: seq<Row>, external: seq<Quote>, exclude: Option<string>, o: Start, w: Walk, j: nat)
    returns (k: nat)
    requires Stopped(resting, external, exclude, o, w) && j < |Survivors(w.states, o.up)| && Increasing(w.states)
    ensures var s := Survivors(w.states, o.up)[j];
      && k < |w.states| && w.states[k] == s && s.qty > 0 && s.index < |resting|
      && Touched(s, o.states[k], resting[s.index], exclude)
      && ReadRow(CopyOrder(s, s.qty, s.hidden), j, exclude) == Keep(ReadBack(s, j))
      && (s.tradeable ==> Queued(w.pending, k))
  {
    var s := Survivors(w.states, o.up)[j];
    SurvivorFacts(w.states, o.up);
    assert s in Survivors(w.states, o.up);
    k :| 0 <= k < |w.states| && w.states[k] == s;
    SurvivorIsTouched(resting, external, exclude, o, w, k);
    TouchedReadsBack(s, o.states[k], resting[s.index], exclude, j);
    TouchedDisplay(s, o.states[k], resting[s.index], exclude, j);
  }

  /** The rows that stay behind are accepted again, one by one, in their new order. */
  lemma SurvivorsReadBack(resting: seq<Row>, external: seq<Quote>, exclude: Option<string>, o: Start, w: Walk)
    requires Stopped(resting, external, exclude, o, w)
    ensures var s := Survivors(w.states, o.up);
      StatesOf(RestingAfter(s), exclude, |s|) == Success(ReadBackAll(s))
  {
    var s := Survivors(w.states, o.up);
    StatesStayIncreasing(o, w);
    forall j | 0 <= j < |s|
      ensures ReadRow(RestingAfter(s)[j], j, exclude) == Keep(ReadBackAll(s)[j])
    {
      var k := SurvivorReadsBackAt(resting, external, exclude, o, w, j);
    }
    RowsReadBack(RestingAfter(s), exclude, ReadBackAll(s), |s|);
    assert ReadBackAll(s)[..|s|] == ReadBackAll(s);
  }

  function TotalOf(row: Row): int { row.qty + HiddenOf(row) }

  /** The queue offers each quote and each row that is not excluded, in full. */
  ghost predicate Offers(queue: seq<Lot<Id>>, resting: seq<Row>, external: seq<Quote>, exclude: Option<string>) {
    && AllLive(queue)
    && (forall i :: 0 <= i < |external| ==> Held(queue, Quoted(i)) == external[i].size)
    && (forall i :: 0 <= i < |resting| ==>
        Held(queue, Resting(i)) == if Excluded(resting[i], exclude) then 0 else TotalOf(resting[i]))
  }

  lemma QuoteIsOffered(up: bool, resting: seq<Row>, external: seq<Quote>, exclude: Option<string>, i: nat)
    requires OpenBook(up, resting, external, exclude).Success? && i < |external|
    ensures Held(QueueOf(OpenBook(up, resting, external, exclude).value), Quoted(i)) == external[i].size
  {
    var o := OpenBook(up, resting, external, exclude).value;
    OpenedItems(up, resting, external, exclude);
    if external[i].size != 0 {
      var quotes := QuotesOf(external, |external|).value;
      StatesReadQuotes(external, |external|);
      var k := StatesCoverQuotes(external, |external|, i);
      var m :| 0 <= m < |o.items| && o.items[m] == QuoteItem(quotes[k]);
      HeldOnce(o.states, o.items, m);
    } else {
      assert forall m :: 0 <= m < |o.items| ==> FromBook(o.items[m], o.states, external);
      HeldNever(o.states, o.items, Quoted(i));
    }
  }

  /** The row at `i` was read, and is offered unless it belongs to the excluded account. */
  lemma ReadRowIsOffered(o: Opened, resting: seq<Row>, external: seq<Quote>, exclude: Option<string>, k: nat)
    requires k < |o.states| && ReadsRows(o.states, resting, exclude, |resting|)
    requires forall i :: 0 <= i < |o.items| ==> FromBook(o.items[i], o.states, external)
    requires DistinctIds(o.items) && (o.states[k].tradeable ==> RowItem(o.states[k], k) in o.items)
    ensures Held(QueueOf(o), Resting(o.states[k].index))
      == if o.states[k].tradeable then o.states[k].qty + o.states[k].hidden else 0
  {
    var s := o.states[k];
    assert ReadRow(resting[s.index], s.index, exclude) == Keep(s);
    if s.tradeable {
      var m :| 0 <= m < |o.items| && o.items[m] == RowItem(s, k);
      HeldOnce(o.states, o.items, m);
      RefillsShowAll(s.hidden, s.display);
    } else {
      forall m | 0 <= m < |o.items|
        ensures IdOf(o.items[m].external, o.items[m].index) != Resting(s.index)
      {
        assert FromBook(o.items[m], o.states, external);
      }
      HeldNever(o.states, o.items, Resting(s.index));
    }
  }

  lemma RowIsOffered(up: bool, resting: seq<Row>, external: seq<Quote>, exclude: Option<string>, i: nat)
    requires OpenBook(up, resting, external, exclude).Success? && i < |resting|
    ensures Held(QueueOf(OpenBook(up, resting, external, exclude).value), Resting(i)) ==
            if Excluded(resting[i], exclude) then 0 else TotalOf(resting[i])
  {
    var o := OpenBook(up, resting, external, exclude).value;
    OpenedItems(up, resting, external, exclude);
    if resting[i].qty != 0 {
      var k := StatesCoverRows(resting, exclude, |resting|, i);
      assert ReadRow(resting[i], i, exclude) == Keep(o.states[k]);
      ReadRowIsOffered(o, resting, external, exclude, k);
    } else {
      EmptyRowHidesNothing(resting, exclude, |resting|, i);
      forall m | 0 <= m < |o.items|
        ensures IdOf(o.items[m].external, o.items[m].index) != Resting(i)
      {
        assert FromBook(o.items[m], o.states, external);
        assert !o.items[m].external ==>
          ReadRow(resting[o.items[m].index], o.items[m].index, exclude) == Keep(o.states[o.items[m].slot]);
      }
      HeldNever(o.states, o.items, Resting(i));
    }
  }

  lemma {:induction false} EmptyRowHidesNothing(rows: seq<Row>, exclude: Option<string>, n: nat, i: nat)
    requires i < n <= |rows| && StatesOf(rows, exclude, n).Success? && rows[i].qty == 0
    ensures HiddenOf(rows[i]) == 0
  {
    if i < n - 1 {
      EmptyRowHidesNothing(rows, exclude, n - 1, i);
    }
  }

  lemma OpenedOffers(up: bool, resting: seq<Row>, external: seq<Quote>, exclude: Option<string>)
    requires OpenBook(up, resting, external, exclude).Success?
    ensures Offers(QueueOf(OpenBook(up, resting, external, exclude).value), resting, external, exclude)
  {
    var o := OpenBook(up, resting, external, exclude).value;
    OpenedItems(up, resting, external, exclude);
    forall i | 0 <= i < |o.items|
      ensures Live(LotOf(o.states, o.items[i]))
    {
      assert FromBook(o.items[i], o.states, external);
      if !o.items[i].external {
        var s := o.states[o.items[i].slot];
        assert ReadRow(resting[s.index], s.index, exclude) == Keep(s);
        RefillsShowAll(s.hidden, s.display);
      }
    }
    forall i | 0 <= i < |external|
      ensures Held(QueueOf(o), Quoted(i)) == external[i].size
    {
      QuoteIsOffered(up, resting, external, exclude, i);
    }
    forall i | 0 <= i < |resting|
      ensures Held(QueueOf(o), Resting(i)) == if Excluded(resting[i], exclude) then 0 else TotalOf(resting[i])
    {
      RowIsOffered(up, resting, external, exclude, i);
    }
  }
}
