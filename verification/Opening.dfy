/** How a plan opens: the validated states, and the queue of work that they and the quotes form. */
module Opening {
  import opened Wrappers
  import opened Liquidity
  import opened ShareQueue
  import opened PlanWalk
  import Sorting

  datatype Opened = Opened(states: seq<State>, items: seq<Item>)

  function RowItem(s: State, slot: nat): Item {
    Item(false, s.index, s.price, s.time, s.sequence, s.qty, slot)
  }

  /** The items of the first `n` states; excluded rows stay out of the queue. */
  function RowItems(states: seq<State>, n: nat): seq<Item>
    requires n <= |states|
  {
    if n == 0 then []
    else RowItems(states, n - 1) + if states[n - 1].tradeable then [RowItem(states[n - 1], n - 1)] else []
  }

  function QuoteItems(quotes: seq<QuoteState>): (r: seq<Item>)
    ensures |r| == |quotes| && forall i :: 0 <= i < |r| ==> r[i] == QuoteItem(quotes[i])
  {
    seq(|quotes|, i requires 0 <= i < |quotes| => QuoteItem(quotes[i]))
  }

  function OpenBook(up: bool, resting: seq<Row>, external: seq<Quote>,
                    exclude: Option<string>): Result<Opened, PlanError> {
    if |resting| > MAX_ROWS then Failure(TooManyRows)
    else
      var states := StatesOf(resting, exclude, |resting|);
      if states.Failure? then Failure(states.error)
      else if |external| > MAX_ROWS then Failure(TooManyRows)
      else
        var quotes := QuotesOf(external, |external|);
        if quotes.Failure? then Failure(quotes.error)
        else Success(Opened(states.value,
                            Sorting.SortBy(ItemOrder(up),
                                           RowItems(states.value, |states.value|) + QuoteItems(quotes.value))))
  }

  function QueueOf(o: Opened): seq<Lot<Id>> { LotsOf(o.states, o.items) }

  lemma {:induction false} RowItemsFacts(states: seq<State>, n: nat)
    requires n <= |states|
    ensures forall i :: 0 <= i < |RowItems(states, n)| ==>
      var p := RowItems(states, n)[i]; p.slot < n && states[p.slot].tradeable && p == RowItem(states[p.slot], p.slot)
    ensures forall i, j :: 0 <= i < j < |RowItems(states, n)| ==>
      RowItems(states, n)[i].slot < RowItems(states, n)[j].slot
    ensures forall k :: 0 <= k < n && states[k].tradeable ==> RowItem(states[k], k) in RowItems(states, n)
  {
    if n > 0 {
      RowItemsFacts(states, n - 1);
      var before, after := RowItems(states, n - 1), RowItems(states, n);
      forall k | 0 <= k < n && states[k].tradeable
        ensures RowItem(states[k], k) in after
      {
        if k == n - 1 {
          assert after[|before|] == RowItem(states[k], k);
        } else {
          assert RowItem(states[k], k) in before;
        }
      }
    }
  }

  ghost predicate FromBook(p: Item, states: seq<State>, external: seq<Quote>) {
    && QuoteKept(external, p)
    && p.quantity > 0
    && (p.external ==> p == QuoteItem(ReadQuote(external[p.index], p.index).state))
    && (!p.external ==> p.slot < |states| && states[p.slot].tradeable && p == RowItem(states[p.slot], p.slot))
  }

  lemma KeptRowIsFromBook(states: seq<State>, k: nat, row: Row, exclude: Option<string>, external: seq<Quote>)
    requires k < |states| && states[k].tradeable && ReadRow(row, states[k].index, exclude) == Keep(states[k])
    ensures FromBook(RowItem(states[k], k), states, external)
  {
  }

  lemma KeptQuoteIsFromBook(q: QuoteState, states: seq<State>, external: seq<Quote>)
    requires q.index < |external| && ReadQuote(external[q.index], q.index) == Keep(q)
    ensures FromBook(QuoteItem(q), states, external)
  {
  }

  /** The items before sorting: each from the book, no row or quote twice, none forgotten. */
  lemma UnsortedItems(states: seq<State>, quotes: seq<QuoteState>, rows: seq<Row>, exclude: Option<string>,
                      external: seq<Quote>)
    returns (items: seq<Item>)
    requires ReadsRows(states, rows, exclude, |rows|) && ReadsQuotes(quotes, external, |external|)
    ensures items == RowItems(states, |states|) + QuoteItems(quotes)
    ensures forall i :: 0 <= i < |items| ==> FromBook(items[i], states, external)
    ensures DistinctIds(items)
    ensures forall k :: 0 <= k < |states| && states[k].tradeable ==> RowItem(states[k], k) in items
    ensures forall k :: 0 <= k < |quotes| ==> QuoteItem(quotes[k]) in items
  {
    hide FromBook, ReadRow, ReadQuote, RowItems;
    var a, b := RowItems(states, |states|), QuoteItems(quotes);
    items := a + b;
    RowItemsFacts(states, |states|);
    forall i | 0 <= i < |items|
      ensures FromBook(items[i], states, external)
    {
      if i >= |a| {
        KeptQuoteIsFromBook(quotes[i - |a|], states, external);
      } else {
        KeptRowIsFromBook(states, a[i].slot, rows[states[a[i].slot].index], exclude, external);
      }
    }
    forall i, j | 0 <= i < j < |items| && items[i].external == items[j].external
      ensures items[i].index != items[j].index
    {
      if j < |a| {
        assert a[i].slot < a[j].slot;
      } else {
        assert i >= |a|;
        assert quotes[i - |a|].index < quotes[j - |a|].index;
      }
    }
    forall k | 0 <= k < |quotes|
      ensures QuoteItem(quotes[k]) in items
    {
      assert items[|a| + k] == QuoteItem(quotes[k]);
    }
  }

  lemma DistinctIdsMeanStrict(up: bool, items: seq<Item>)
    requires Sorting.Ordered(ItemOrder(up), items) && DistinctIds(items)
    ensures Sorting.Strict(ItemOrder(up), items)
  {
  }

  lemma DistinctIdsSurviveSorting(a: seq<Item>, b: seq<Item>)
    requires DistinctIds(a) && multiset(a) == multiset(b)
    ensures DistinctIds(b) && Sorting.Distinct(a) && Sorting.Distinct(b)
  {
    forall i, j | 0 <= i < j < |a|
      ensures a[i] != a[j]
    {
      assert a[i].external == a[j].external ==> a[i].index != a[j].index;
    }
    Sorting.PermutationStaysDistinct(a, b);
    Sorting.PermutationKeepsMembers(a, b);
    forall i, j | 0 <= i < j < |b| && b[i].external == b[j].external
      ensures b[i].index != b[j].index
    {
      assert b[i] in a && b[j] in a && b[i] != b[j];
    }
  }

  /** Every item of an opened book comes from the book, once, and no offered row or quote is missing. */
  lemma OpenedItems(up: bool, resting: seq<Row>, external: seq<Quote>, exclude: Option<string>)
    requires OpenBook(up, resting, external, exclude).Success?
    ensures var o := OpenBook(up, resting, external, exclude).value;
      && ReadsRows(o.states, resting, exclude, |resting|)
      && (forall i :: 0 <= i < |o.items| ==> FromBook(o.items[i], o.states, external))
      && DistinctIds(o.items) && Sorting.Strict(ItemOrder(up), o.items)
      && (forall k :: 0 <= k < |o.states| && o.states[k].tradeable ==> RowItem(o.states[k], k) in o.items)
      && (forall k :: 0 <= k < |QuotesOf(external, |external|).value| ==>
          QuoteItem(QuotesOf(external, |external|).value[k]) in o.items)
  {
    var o := OpenBook(up, resting, external, exclude).value;
    var quotes := QuotesOf(external, |external|).value;
    StatesReadRows(resting, exclude, |resting|);
    StatesReadQuotes(external, |external|);
    var a := UnsortedItems(o.states, quotes, resting, exclude, external);
    ItemOrderIsTotal(up);
    Sorting.SortIsOrderedPermutation(ItemOrder(up), a);
    DistinctIdsSurviveSorting(a, o.items);
    DistinctIdsMeanStrict(up, o.items);
    Sorting.PermutationKeepsMembers(a, o.items);
    forall i | 0 <= i < |o.items|
      ensures FromBook(o.items[i], o.states, external)
    {
      assert o.items[i] in a;
    }
  }

  /** The latest clock on either side of the book. */
  function Latest(resting: seq<Row>, external: seq<Quote>): real {
    if resting != [] then
      var rest := Latest(resting[1..], external);
      if resting[0].time > rest then resting[0].time else rest
    else if external != [] then
      var rest := Latest([], external[1..]);
      if external[0].time.Some? && external[0].time.value > rest then external[0].time.value else rest
    else 0.0
  }

  lemma {:induction false} LatestBounds(resting: seq<Row>, external: seq<Quote>)
    ensures Latest(resting, external) >= 0.0
    ensures forall i :: 0 <= i < |resting| ==> resting[i].time <= Latest(resting, external)
    ensures forall i :: 0 <= i < |external| && external[i].time.Some? ==>
      external[i].time.value <= Latest(resting, external)
  {
    if resting != [] {
      LatestBounds(resting[1..], external);
      assert forall i :: 1 <= i < |resting| ==> resting[i] == resting[1..][i - 1];
    } else if external != [] {
      LatestBounds([], external[1..]);
      assert forall i :: 1 <= i < |external| ==> external[i] == external[1..][i - 1];
    }
  }

  /** It is the least bound. */
  lemma {:induction false} LatestIsLeast(resting: seq<Row>, external: seq<Quote>, bound: real)
    requires bound >= 0.0 && (forall i :: 0 <= i < |resting| ==> resting[i].time <= bound)
    requires forall i :: 0 <= i < |external| && external[i].time.Some? ==> external[i].time.value <= bound
    ensures Latest(resting, external) <= bound
  {
    if resting != [] {
      LatestIsLeast(resting[1..], external, bound);
    } else if external != [] {
      LatestIsLeast([], external[1..], bound);
    }
  }

  lemma OpensClocked(up: bool, resting: seq<Row>, external: seq<Quote>, exclude: Option<string>, counter: real)
    requires OpenBook(up, resting, external, exclude).Success?
    ensures var o := OpenBook(up, resting, external, exclude).value;
      Clocked(Start(o.states, external, QueueOf(o), up, Latest(resting, external)),
              Walk(o.states, o.items, [], 0, counter))
  {
    hide OpenBook, QueueOf, Latest;
    var o := OpenBook(up, resting, external, exclude).value;
    OpenedItems(up, resting, external, exclude);
    LatestBounds(resting, external);
    forall k | 0 <= k < |o.states|
      ensures o.states[k].time <= Latest(resting, external)
    {
      assert ReadRow(resting[o.states[k].index], o.states[k].index, exclude) == Keep(o.states[k]);
    }
    forall i | 0 <= i < |o.items|
      ensures o.items[i].time <= Latest(resting, external)
    {
      assert FromBook(o.items[i], o.states, external);
    }
  }

  /** A row that was kept shows shares, and is as it was read. */
  lemma KeptRowShows(row: Row, index: nat, exclude: Option<string>)
    requires ReadRow(row, index, exclude).Keep?
    ensures var s := ReadRow(row, index, exclude).state; SameRow(s, s) && s.display > 0 && s.qty > 0
  {
  }

  /** Every row is as read, and everything offered is queued. */
  lemma OpensLined(up: bool, resting: seq<Row>, external: seq<Quote>, exclude: Option<string>, counter: real,
                   start: Start)
    requires OpenBook(up, resting, external, exclude).Success?
    requires var o := OpenBook(up, resting, external, exclude).value;
      && start.states == o.states && start.external == external && start.up == up
      && forall i :: 0 <= i < |o.items| ==> o.items[i].sequence <= counter
    ensures var o := OpenBook(up, resting, external, exclude).value;
      var w := Walk(o.states, o.items, [], 0, counter);
      RowsKept(start, w.states) && QuotesKept(external, w.pending) && Lined(up, w)
  {
    var o := OpenBook(up, resting, external, exclude).value;
    var w := Walk(o.states, o.items, [], 0, counter);
    OpenedItems(up, resting, external, exclude);
    hide OpenBook, ReadRow, SameRow;
    forall k | 0 <= k < |o.states|
      ensures SameRow(o.states[k], o.states[k]) && o.states[k].display > 0 && o.states[k].qty > 0
    {
      KeptRowShows(resting[o.states[k].index], o.states[k].index, exclude);
      assert ReadRow(resting[o.states[k].index], o.states[k].index, exclude) == Keep(o.states[k]);
    }
    forall i | 0 <= i < |w.pending|
      ensures Matches(w.states, w.pending[i]) && QuoteKept(external, w.pending[i])
    {
      assert FromBook(o.items[i], o.states, external);
    }
    forall k | 0 <= k < |w.states| && w.states[k].tradeable
      ensures Queued(w.pending, k)
    {
      var i :| 0 <= i < |o.items| && o.items[i] == RowItem(o.states[k], k);
      assert w.pending[i].slot == k;
    }
  }

  /** The walk starts in a good state. */
  lemma OpensGood(up: bool, resting: seq<Row>, external: seq<Quote>, exclude: Option<string>, counter: real)
    requires OpenBook(up, resting, external, exclude).Success?
    requires var o := OpenBook(up, resting, external, exclude).value;
      forall i :: 0 <= i < |o.items| ==> o.items[i].sequence <= counter
    ensures var o := OpenBook(up, resting, external, exclude).value;
      Good(Start(o.states, external, QueueOf(o), up, Latest(resting, external)),
           Walk(o.states, o.items, [], 0, counter))
  {
    hide OpenBook, Latest, Lined, RowsKept, QuotesKept, Clocked;
    var o := OpenBook(up, resting, external, exclude).value;
    OpensClocked(up, resting, external, exclude, counter);
    OpensLined(up, resting, external, exclude, counter,
               Start(o.states, external, QueueOf(o), up, Latest(resting, external)));
  }
}
