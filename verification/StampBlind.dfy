/** Stamps only ever put a row behind its price level: the stamped changes follow the stamp-free ones. */
module StampBlind {
  import opened Wrappers
  import opened Liquidity
  import opened PlanContract
  import opened QuoteBook
  import Sorting

  /** A side in book order, with no stamp ahead of the clock or the counter. */
  ghost predicate StampedRows(rows: seq<Row>, up: bool, now: real, counter: real) {
    && Sorting.Ordered(RowOrder(up), rows)
    && forall i :: 0 <= i < |rows| ==>
       rows[i].sequence.Some? && rows[i].time <= now && rows[i].sequence.value <= counter
  }

  ghost predicate StampedDesk(d: Desk, now: real, counter: real) {
    && (d.resting.Some? ==>
        StampedRows(d.resting.value.bids, false, now, counter) && StampedRows(d.resting.value.asks, true, now, counter))
    && (d.synthetic.Some? ==> ClockedQuotes(d.synthetic.value.bids, now) && ClockedQuotes(d.synthetic.value.asks, now))
  }

  ghost predicate ClockedQuotes(quotes: seq<Quote>, now: real) {
    forall i :: 0 <= i < |quotes| && quotes[i].time.Some? ==> quotes[i].time.value <= now
  }

  lemma ClocksAdvance(d: Desk, now: real, counter: real, later: real, higher: real)
    requires StampedDesk(d, now, counter) && now <= later && counter <= higher
    ensures StampedDesk(d, later, higher)
  {
  }

  /** Behind every element that may precede it. */
  function InsertLast<T>(le: (T, T) -> bool, x: T, s: seq<T>): seq<T> {
    if s != [] && le(s[0], x) then [s[0]] + InsertLast(le, x, s[1..]) else [x] + s
  }

  /** Putting the first element back in front of a sorted list that has gained `x`. */
  lemma InsertAround<T(!new)>(le: (T, T) -> bool, h: T, x: T, s: seq<T>)
    requires Sorting.TotalPreorder(le) && (s != [] ==> le(h, s[0]))
    ensures Sorting.Insert(le, h, InsertLast(le, x, s)) == InsertLast(le, x, [h] + s)
  {
    assert ([h] + s)[1..] == s && ([x] + s)[1..] == s;
    if !le(h, x) {
      assert s != [] ==> !le(s[0], x);
    }
  }

  lemma SortOfCons<T>(le: (T, T) -> bool, h: T, t: seq<T>)
    ensures Sorting.SortBy(le, [h] + t) == Sorting.Insert(le, h, Sorting.SortBy(le, t))
  {
    assert ([h] + t)[0] == h && ([h] + t)[1..] == t && [h] + t != [];
  }

  lemma TailStaysOrdered<T>(le: (T, T) -> bool, h: T, s: seq<T>)
    requires Sorting.Ordered(le, [h] + s)
    ensures Sorting.Ordered(le, s) && (s != [] ==> le(h, s[0]))
  {
    var all := [h] + s;
    forall i, j | 0 <= i < j < |s|
      ensures le(s[i], s[j])
    {
      assert s[i] == all[i + 1] && s[j] == all[j + 1];
    }
    if s != [] { assert le(all[0], all[1]); }
  }

  /** Sorting a list that is in order but for one element puts that element last among its equals. */
  lemma {:induction false} SortPlaces<T(!new)>(le: (T, T) -> bool, a: seq<T>, x: T, b: seq<T>)
    requires Sorting.TotalPreorder(le) && Sorting.Ordered(le, a + b)
    requires forall i :: 0 <= i < |b| ==> !(le(x, b[i]) && le(b[i], x))
    ensures Sorting.SortBy(le, a + [x] + b) == InsertLast(le, x, a + b)
  {
    hide Sorting.TotalPreorder, Sorting.Ordered, Sorting.SortBy, Sorting.Insert, InsertLast;
    if a == [] {
      assert a + [x] + b == [x] + b && a + b == b;
      SortOfCons(le, x, b);
      Sorting.OrderedStays(le, b);
      InsertsAlike(le, x, b);
    } else {
      var h, rest := a[0], a[1..];
      assert a + [x] + b == [h] + (rest + [x] + b) && a + b == [h] + (rest + b);
      TailStaysOrdered(le, h, rest + b);
      SortPlaces(le, rest, x, b);
      SortOfCons(le, h, rest + [x] + b);
      InsertAround(le, h, x, rest + b);
    }
  }

  lemma {:induction false} InsertsAlike<T(!new)>(le: (T, T) -> bool, x: T, b: seq<T>)
    requires Sorting.TotalPreorder(le) && forall i :: 0 <= i < |b| ==> !(le(x, b[i]) && le(b[i], x))
    ensures Sorting.Insert(le, x, b) == InsertLast(le, x, b)
  {
    if b != [] {
      assert le(x, b[0]) || le(b[0], x);
      if !le(x, b[0]) { InsertsAlike(le, x, b[1..]); }
    }
  }

  lemma {:induction false} InsertLastKeepsOrder<T(!new)>(le: (T, T) -> bool, x: T, s: seq<T>)
    requires Sorting.TotalPreorder(le) && Sorting.Ordered(le, s)
    ensures Sorting.Ordered(le, InsertLast(le, x, s))
    ensures forall y :: y in InsertLast(le, x, s) <==> y == x || y in s
  {
    if s != [] && le(s[0], x) {
      assert forall i, j :: 0 <= i < j < |s[1..]| ==> s[1..][i] == s[i + 1] && s[1..][j] == s[j + 1];
      InsertLastKeepsOrder(le, x, s[1..]);
      var t := InsertLast(le, x, s[1..]);
      forall j | 0 <= j < |t|
        ensures le(s[0], t[j])
      {
        assert t[j] in t;
        if t[j] != x {
          var i :| 0 <= i < |s[1..]| && s[1..][i] == t[j];
          assert le(s[0], s[i + 1]);
        }
      }
      assert forall y :: y in s <==> y == s[0] || y in s[1..];
    } else if s != [] {
      forall j | 0 <= j < |s|
        ensures le(x, s[j])
      {
        assert le(x, s[0]) && (j > 0 ==> le(s[0], s[j]));
      }
    }
  }

  lemma OrdersAreTotal(up: bool)
    ensures Sorting.TotalPreorder(RowOrder(up)) && Sorting.TotalPreorder(ClockOrder(up))
  {
  }

  lemma BareCons(row: Row, rows: seq<Row>)
    ensures BareRows([row] + rows) == [Bare(row)] + BareRows(rows)
  {
    hide Bare;
  }

  lemma LatestCompares(le: (Row, Row) -> bool, row: Row, x: Row, up: bool)
    requires (le == RowOrder(up) || le == ClockOrder(up)) && row.time <= x.time && SequenceOf(row) <= SequenceOf(x)
    ensures le(row, x) <==> AtLeastAsGood(Bare(row).price, Bare(x).price, up)
  {
  }

  /** A row whose stamps are the latest goes behind its level, whatever the stamps are. */
  lemma {:induction false} LatestGoesBehind(le: (Row, Row) -> bool, rows: seq<Row>, x: Row, up: bool)
    requires le == RowOrder(up) || le == ClockOrder(up)
    requires forall i :: 0 <= i < |rows| ==> rows[i].time <= x.time && SequenceOf(rows[i]) <= SequenceOf(x)
    ensures BareRows(InsertLast(le, x, rows)) == Behind(BareRows(rows), Bare(x), up)
  {
    hide RowOrder, ClockOrder, Bare, AtLeastAsGood, SequenceOf;
    BareCons(x, rows);
    if rows != [] {
      var h, rest := rows[0], rows[1..];
      assert rows == [h] + rest;
      BareCons(h, rest);
      assert BareRows(rows)[1..] == BareRows(rest);
      LatestCompares(le, h, x, up);
      if le(h, x) {
        LatestGoesBehind(le, rest, x, up);
        BareCons(h, InsertLast(le, x, rest));
      }
    }
  }

  /** A placed row. */
  lemma AddedGoesBehind(rows: seq<Row>, x: Row, up: bool, now: real, counter: real)
    requires StampedRows(rows, up, now, counter) && x.time == now && x.sequence == Some(counter + 1.0) && counter >= 0.0
    ensures BareRows(Added(rows, x, up)) == Behind(BareRows(rows), Bare(x), up)
    ensures StampedRows(Added(rows, x, up), up, now, counter + 1.0)
  {
    OrdersAreTotal(up);
    assert rows + [x] == rows + [x] + [] && rows + [] == rows;
    forall i, j | 0 <= i < j < |rows|
      ensures ClockOrder(up)(rows[i], rows[j])
    {
      assert RowOrder(up)(rows[i], rows[j]);
    }
    SortPlaces(ClockOrder(up), rows, x, []);
    LatestGoesBehind(ClockOrder(up), rows, x, up);
    SameInsertion(rows, x, up);
    InsertLastKeepsOrder(RowOrder(up), x, rows);
    StampsWithLast(rows, x, up, now, counter);
  }

  lemma {:induction false} SameInsertion(rows: seq<Row>, x: Row, up: bool)
    requires forall i :: 0 <= i < |rows| ==> rows[i].time <= x.time && SequenceOf(rows[i]) <= SequenceOf(x)
    ensures InsertLast(ClockOrder(up), x, rows) == InsertLast(RowOrder(up), x, rows)
  {
    if rows != [] { SameInsertion(rows[1..], x, up); }
  }

  lemma StampsWithLast(rows: seq<Row>, x: Row, up: bool, now: real, counter: real)
    requires forall i :: 0 <= i < |rows| ==>
      rows[i].sequence.Some? && rows[i].time <= now && rows[i].sequence.value <= counter
    requires x.time == now && x.sequence == Some(counter + 1.0)
    requires var after := InsertLast(RowOrder(up), x, rows); forall y :: y in after <==> y == x || y in rows
    ensures var after := InsertLast(RowOrder(up), x, rows);
      forall i :: 0 <= i < |after| ==>
        after[i].sequence.Some? && after[i].time <= now && after[i].sequence.value <= counter + 1.0
  {
    var after := InsertLast(RowOrder(up), x, rows);
    forall i | 0 <= i < |after|
      ensures after[i].sequence.Some? && after[i].time <= now && after[i].sequence.value <= counter + 1.0
    {
      assert after[i] in after;
      if after[i] != x {
        assert after[i] in rows;
        var k :| 0 <= k < |rows| && rows[k] == after[i];
      }
    }
  }

  /** Rows in the old order with their old stamps, some of them gone or smaller. */
  ghost predicate Thinned(after: seq<Row>, rows: seq<Row>, up: bool) {
    && Sorting.Ordered(RowOrder(up), after)
    && forall i :: 0 <= i < |after| ==> StampedLikeOne(after[i], rows)
  }

  predicate StampedLikeOne(row: Row, rows: seq<Row>) {
    exists j :: 0 <= j < |rows| && SameStamps(row, rows[j])
  }

  predicate SameStamps(a: Row, b: Row) { a.price == b.price && a.time == b.time && a.sequence == b.sequence }

  lemma ThinnedGrows(after: seq<Row>, rows: seq<Row>, up: bool, row: Row)
    requires rows != [] && Thinned(after, rows[..|rows| - 1], up) && Sorting.Ordered(RowOrder(up), rows)
    requires SameStamps(row, rows[|rows| - 1])
    ensures Thinned(after + [row], rows, up) && Thinned(after, rows, up)
  {
    var n := |rows| - 1;
    forall i | 0 <= i < |after|
      ensures StampedLikeOne(after[i], rows)
      ensures RowOrder(up)(after[i], row)
    {
      var j :| 0 <= j < n && SameStamps(after[i], rows[..n][j]);
      assert SameStamps(after[i], rows[j]) && RowOrder(up)(rows[j], rows[n]);
    }
    assert SameStamps((after + [row])[|after|], rows[n]);
    assert forall i :: 0 <= i < |after| ==> (after + [row])[i] == after[i];
  }

  lemma ThinnedStaysStamped(after: seq<Row>, rows: seq<Row>, up: bool, now: real, counter: real)
    requires Thinned(after, rows, up) && StampedRows(rows, up, now, counter)
    ensures StampedRows(after, up, now, counter)
  {
  }

  /**
   What a removal sweep does, with and without stamps: the rows kept, and the one that goes to the
   back of its level.
   */
  ghost predicate Split(rows: seq<Row>, up: bool, now: real, counter: real, s: Sweep, t: BareSweep, a: seq<Row>,
                        b: seq<Row>, e: Option<Row>) {
    && s.wanted == t.wanted && t.rows == BareRows(a + b) && Thinned(a + b, rows, up)
    && (e.None? ==> s.rows == a + b && s.counter == counter && t.requeued.None?)
    && (e.Some? ==>
      && s.rows == a + [e.value] + b && s.counter == counter + 1.0 && t.requeued == Some(Bare(e.value))
      && e.value.time == now && e.value.sequence == Some(counter + 1.0))
  }

  lemma {:induction false} SweepSplits(rows: seq<Row>, up: bool, orderId: Option<string>, wanted: Option<int>,
                                       now: real, counter: real)
    returns (a: seq<Row>, b: seq<Row>, e: Option<Row>)
    requires Sorting.Ordered(RowOrder(up), rows)
    ensures Split(rows, up, now, counter, RemoveFrom(rows, orderId, wanted, now, counter),
                  BareRemove(BareRows(rows), orderId, wanted), a, b, e)
    decreases |rows|
  {
    hide Split, Sorting.Ordered, CutRow, TakenFrom, Bare, RowOrder;
    a, b, e := [], [], None;
    if rows == [] {
      SweepsNothing(rows, up, wanted, now, counter);
    } else {
      var n := |rows| - 1;
      var row, rest := rows[n], rows[..n];
      assert BareRows(rows)[..n] == BareRows(rest) && BareRows(rows)[n] == Bare(row);
      BareKeepsMark(row);
      PrefixOrdered(rows, up);
      CutIsStampBlind(row, if wanted.Some? then wanted.value else 0);
      if row.mark.orderId != orderId {
        a, b, e := SweepSplits(rest, up, orderId, wanted, now, counter);
        SweepKeeps(rows, up, now, counter, RemoveFrom(rest, orderId, wanted, now, counter),
                   BareRemove(BareRows(rest), orderId, wanted), a, b, e, row);
        b := b + [row];
      } else if wanted.None? {
        a, b, e := SweepSplits(rest, up, orderId, wanted, now, counter);
        SweepDrops(rows, up, now, counter, RemoveFrom(rest, orderId, wanted, now, counter),
                   BareRemove(BareRows(rest), orderId, wanted), a, b, e);
      } else if wanted.value <= 0 {
        a := rows;
        SweepsNothing(rows, up, wanted, now, counter);
      } else {
        var more := Some(wanted.value - TakenFrom(row, wanted.value));
        match CutRow(row, wanted.value)
        case Gone =>
          a, b, e := SweepSplits(rest, up, orderId, more, now, counter);
          SweepDrops(rows, up, now, counter, RemoveFrom(rest, orderId, more, now, counter),
                     BareRemove(BareRows(rest), orderId, more), a, b, e);
        case Shrunk(left) =>
          a, b, e := SweepSplits(rest, up, orderId, more, now, counter);
          SweepKeeps(rows, up, now, counter, RemoveFrom(rest, orderId, more, now, counter),
                     BareRemove(BareRows(rest), orderId, more), a, b, e, left);
          b := b + [left];
        case Requeued(left) =>
          NothingWanted(rest, orderId, more, now, counter + 1.0);
          a, e := rest, Some(left.(time := now, sequence := Some(counter + 1.0)));
          SweepRequeues(rows, up, now, counter, more, left);
      }
    }
  }

  lemma SweepsNothing(rows: seq<Row>, up: bool, wanted: Option<int>, now: real, counter: real)
    requires Sorting.Ordered(RowOrder(up), rows)
    ensures Split(rows, up, now, counter, Sweep(rows, wanted, counter), BareSweep(BareRows(rows), wanted, None), rows,
                  [], None)
  {
    assert rows + [] == rows;
    ThinnedSelf(rows, up);
  }

  lemma SweepKeeps(rows: seq<Row>, up: bool, now: real, counter: real, s: Sweep, t: BareSweep, a: seq<Row>, b: seq<Row>,
                   e: Option<Row>, row: Row)
    requires rows != [] && Sorting.Ordered(RowOrder(up), rows) && SameStamps(row, rows[|rows| - 1])
    requires Split(rows[..|rows| - 1], up, now, counter, s, t, a, b, e)
    ensures Split(rows, up, now, counter, s.(rows := s.rows + [row]), t.(rows := t.rows + [Bare(row)]), a, b + [row], e)
  {
    hide Thinned, Sorting.Ordered, RowOrder;
    assert a + (b + [row]) == a + b + [row];
    ThinnedGrows(a + b, rows, up, row);
    if e.Some? { assert a + [e.value] + (b + [row]) == a + [e.value] + b + [row]; }
  }

  lemma SweepDrops(rows: seq<Row>, up: bool, now: real, counter: real, s: Sweep, t: BareSweep, a: seq<Row>, b: seq<Row>,
                   e: Option<Row>)
    requires rows != [] && Sorting.Ordered(RowOrder(up), rows)
    requires Split(rows[..|rows| - 1], up, now, counter, s, t, a, b, e)
    ensures Split(rows, up, now, counter, s, t, a, b, e)
  {
    hide Thinned, Sorting.Ordered, RowOrder;
    ThinnedGrows(a + b, rows, up, rows[|rows| - 1]);
  }

  lemma SweepRequeues(rows: seq<Row>, up: bool, now: real, counter: real, more: Option<int>, left: Row)
    requires rows != [] && Sorting.Ordered(RowOrder(up), rows)
    ensures var rest, e := rows[..|rows| - 1], left.(time := now, sequence := Some(counter + 1.0));
      Split(rows, up, now, counter, Sweep(rest + [e], more, counter + 1.0),
            BareSweep(BareRows(rest), more, Some(Bare(left))), rest, [], Some(e))
  {
    hide Thinned, Sorting.Ordered, RowOrder;
    var rest := rows[..|rows| - 1];
    assert rest + [] == rest;
    PrefixOrdered(rows, up);
    ThinnedSelf(rest, up);
    ThinnedGrows(rest, rows, up, rows[|rows| - 1]);
  }

  lemma BareKeepsMark(row: Row)
    ensures Bare(row).mark == row.mark && SameStamps(row, row)
  {
  }

  lemma ThinnedSelf(rows: seq<Row>, up: bool)
    requires Sorting.Ordered(RowOrder(up), rows)
    ensures Thinned(rows, rows, up)
  {
    forall i | 0 <= i < |rows|
      ensures StampedLikeOne(rows[i], rows)
    {
      assert SameStamps(rows[i], rows[i]);
    }
  }

  lemma PrefixOrdered(rows: seq<Row>, up: bool)
    requires rows != [] && Sorting.Ordered(RowOrder(up), rows)
    ensures Sorting.Ordered(RowOrder(up), rows[..|rows| - 1])
  {
    hide RowOrder;
    var rest := rows[..|rows| - 1];
    assert forall i, j :: 0 <= i < j < |rest| ==> rest[i] == rows[i] && rest[j] == rows[j];
  }

  lemma CutIsStampBlind(row: Row, n: int)
    ensures TakenFrom(Bare(row), n) == TakenFrom(row, n)
    ensures match CutRow(row, n)
      case Gone => CutRow(Bare(row), n) == Gone
      case Shrunk(left) => CutRow(Bare(row), n) == Shrunk(Bare(left)) && SameStamps(left, row)
      case Requeued(left) => CutRow(Bare(row), n) == Requeued(Bare(left)) && TakenFrom(row, n) >= n
  {
  }

  lemma {:induction false} NothingWanted(rows: seq<Row>, orderId: Option<string>, wanted: Option<int>, now: real,
                                         counter: real)
    requires wanted.Some? && wanted.value <= 0
    ensures RemoveFrom(rows, orderId, wanted, now, counter) == Sweep(rows, wanted, counter)
  {
    if rows != [] {
      var n := |rows| - 1;
      assert rows == rows[..n] + [rows[n]];
      NothingWanted(rows[..n], orderId, wanted, now, counter);
    }
  }

  /** A side after a removal. */
  lemma RemovalIsStampBlind(rows: seq<Row>, up: bool, orderId: Option<string>, wanted: Option<int>, now: real,
                            counter: real)
    requires StampedRows(rows, up, now, counter)
    ensures var s, t := RemoveFrom(rows, orderId, wanted, now, counter), BareRemove(BareRows(rows), orderId, wanted);
      && s.wanted == t.wanted && counter <= s.counter <= counter + 1.0
      && BareRows(Sorting.SortBy(RowOrder(up), s.rows)) == Settled(t, up)
      && StampedRows(Sorting.SortBy(RowOrder(up), s.rows), up, now, s.counter)
  {
    hide RemoveFrom, BareRemove;
    var a, b, e := SweepSplits(rows, up, orderId, wanted, now, counter);
    ThinnedStaysStamped(a + b, rows, up, now, counter);
    hide Thinned;
    if e.None? {
      Sorting.OrderedStays(RowOrder(up), a + b);
    } else {
      RequeuedGoesBehind(a, e.value, b, up, now, counter);
    }
  }

  lemma RequeuedGoesBehind(a: seq<Row>, x: Row, b: seq<Row>, up: bool, now: real, counter: real)
    requires StampedRows(a + b, up, now, counter) && x.time == now && x.sequence == Some(counter + 1.0)
    ensures BareRows(Sorting.SortBy(RowOrder(up), a + [x] + b)) == Behind(BareRows(a + b), Bare(x), up)
    ensures StampedRows(Sorting.SortBy(RowOrder(up), a + [x] + b), up, now, counter + 1.0)
  {
    OrdersAreTotal(up);
    forall i | 0 <= i < |b|
      ensures !(RowOrder(up)(x, b[i]) && RowOrder(up)(b[i], x))
    {
      assert b[i] == (a + b)[|a| + i];
    }
    SortPlaces(RowOrder(up), a, x, b);
    LatestGoesBehind(RowOrder(up), a + b, x, up);
    InsertLastKeepsOrder(RowOrder(up), x, a + b);
    StampsWithLast(a + b, x, up, now, counter);
  }

  lemma {:induction false} PrunedBare(rows: seq<Row>, tick: int)
    ensures BareRows(Unexpired(rows, tick)) == Unexpired(BareRows(rows), tick)
  {
    if rows != [] {
      assert BareRows(rows)[1..] == BareRows(rows[1..]);
      PrunedBare(rows[1..], tick);
      var kept := Unexpired(rows[1..], tick);
      assert BareRows([rows[0]] + kept) == [Bare(rows[0])] + BareRows(kept);
    } else {
      assert BareRows(rows) == [];
    }
  }

  lemma {:induction false} PrunedKeepsOrder(rows: seq<Row>, up: bool, tick: int)
    requires Sorting.Ordered(RowOrder(up), rows)
    ensures Sorting.Ordered(RowOrder(up), Unexpired(rows, tick))
    ensures forall x :: x in Unexpired(rows, tick) ==> x in rows
  {
    hide RowOrder;
    if rows != [] {
      var rest := rows[1..];
      assert forall i, j :: 0 <= i < j < |rest| ==> rest[i] == rows[i + 1] && rest[j] == rows[j + 1];
      PrunedKeepsOrder(rest, up, tick);
      var kept := Unexpired(rest, tick);
      forall j | 0 <= j < |kept|
        ensures RowOrder(up)(rows[0], kept[j])
      {
        assert kept[j] in kept;
        var i :| 0 <= i < |rest| && rest[i] == kept[j];
        assert rows[i + 1] == kept[j];
      }
    }
  }

  lemma PruningIsStampBlind(rows: seq<Row>, up: bool, tick: int, now: real, counter: real)
    requires StampedRows(rows, up, now, counter)
    ensures BareRows(Unexpired(rows, tick)) == Unexpired(BareRows(rows), tick)
    ensures StampedRows(Unexpired(rows, tick), up, now, counter)
  {
    PrunedBare(rows, tick);
    PrunedKeepsOrder(rows, up, tick);
    hide Sorting.Ordered, Unexpired;
    var kept := Unexpired(rows, tick);
    forall i | 0 <= i < |kept|
      ensures kept[i].sequence.Some? && kept[i].time <= now && kept[i].sequence.value <= counter
    {
      assert kept[i] in kept;
      var j :| 0 <= j < |rows| && rows[j] == kept[i];
    }
  }

  lemma {:induction false} ClimbIsStampBlind(ladder: seq<Rung>, now: real, counter: real)
    ensures BareLevels(Climb(ladder, now, counter).0) == BareClimb(ladder) && Climb(ladder, now, counter).1 >= counter
    ensures ClockedQuotes(Climb(ladder, now, counter).0.bids, now)
    ensures ClockedQuotes(Climb(ladder, now, counter).0.asks, now)
  {
    if ladder != [] { ClimbIsStampBlind(ladder[..|ladder| - 1], now, counter); }
  }

  lemma PlacementIsStampBlind(d: Desk, c: Change, now: real, counter: real)
    requires StampedDesk(d, now, counter) && counter >= 0.0 && (c.Place? || c.PlaceVirtual?)
    ensures var r := Apply(d, c, now, counter);
      BareDesk(r.desk) == ApplyBare(BareDesk(d), c) && StampedDesk(r.desk, now, r.counter) && r.counter >= counter
  {
    hide Added, Behind, StampedRows;
    var row, b := NewRow(c), BookOf(d);
    if row.Some? {
      EmptySideIsStamped(now, counter);
      OneMoreTick(b, now, counter);
      var stamped := row.value.(time := now, sequence := Some(counter + 1.0));
      assert Bare(stamped) == row.value;
      assert BareRows([]) == [];
      AddedGoesBehind(if c.side.Buying() then b.bids else b.asks, stamped, !c.side.Buying(), now, counter);
    }
  }

  lemma EmptySideIsStamped(now: real, counter: real)
    ensures StampedRows([], false, now, counter) && StampedRows([], true, now, counter)
  {
  }

  lemma OneMoreTick(b: Book, now: real, counter: real)
    requires StampedRows(b.bids, false, now, counter) && StampedRows(b.asks, true, now, counter)
    ensures forall later :: later >= counter ==>
      StampedRows(b.bids, false, now, later) && StampedRows(b.asks, true, now, later)
  {
  }

  /**
   The main lemma: up to stamps, a change does the same to a book whenever it happens and whatever
   it is stamped with.
   */
  lemma ChangeIsStampBlind(d: Desk, c: Change, now: real, counter: real)
    requires StampedDesk(d, now, counter) && counter >= 0.0
    ensures var r := Apply(d, c, now, counter);
      BareDesk(r.desk) == ApplyBare(BareDesk(d), c) && StampedDesk(r.desk, now, r.counter) && r.counter >= counter
  {
    hide RemoveFrom, BareRemove, Unexpired, Climb, BareClimb, StampedRows, Settled, Behind, Added;
    match c
    case Place(_, _, _, _, _, _, _) => PlacementIsStampBlind(d, c, now, counter);
    case PlaceVirtual(_, _, _, _, _, _, _) => PlacementIsStampBlind(d, c, now, counter);
    case Refresh(ladder, _, _) =>
      ClimbIsStampBlind(ladder, now, counter);
      ClocksAdvance(d, now, counter, now, Apply(d, c, now, counter).counter);
    case Prune(tick) =>
      if d.resting.Some? {
        PruningIsStampBlind(d.resting.value.bids, false, tick, now, counter);
        PruningIsStampBlind(d.resting.value.asks, true, tick, now, counter);
      }
    case Remove(orderId, shares) =>
      if d.resting.Some? {
        var b := d.resting.value;
        RemovalIsStampBlind(b.bids, false, orderId, shares, now, counter);
        var bids := RemoveFrom(b.bids, orderId, shares, now, counter);
        OneMoreTick(b, now, counter);
        RemovalIsStampBlind(b.asks, true, orderId, bids.wanted, now, bids.counter);
        EmptySideIsStamped(now, bids.counter);
        OneMoreTick(Book(Sorting.SortBy(RowOrder(false), bids.rows), []), now, bids.counter);
      }
  }
}
