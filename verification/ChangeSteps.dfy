/** The engine's loops over a book: each computes the change that `Apply` specifies. */
module ChangeSteps {
  import opened Wrappers
  import opened Liquidity
  import opened PlanContract
  import opened QuoteBook
  import Sorting

  /** Removes an order's rows from one side, walking it from the back. */
  method RemoveRows(rows: seq<Row>, orderId: Option<string>, wanted: Option<int>, now: real, counter: real)
    returns (s: Sweep)
    ensures s == RemoveFrom(rows, orderId, wanted, now, counter)
  {
    hide CutRow, TakenFrom;
    ghost var whole := RemoveFrom(rows, orderId, wanted, now, counter);
    var tail, toRemove, next, i := [], wanted, counter, |rows|;
    assert rows[..i] == rows;
    while i > 0
      invariant 0 <= i <= |rows|
      invariant var r := RemoveFrom(rows[..i], orderId, toRemove, now, next);
        whole == Sweep(r.rows + tail, r.wanted, r.counter)
    {
      var row := rows[i - 1];
      assert rows[..i][..i - 1] == rows[..i - 1];
      ghost var rest := rows[..i - 1];
      if row.mark.orderId != orderId {
        Regroup(RemoveFrom(rest, orderId, toRemove, now, next).rows, row, tail);
        tail := [row] + tail;
      } else if toRemove.Some? {
        if toRemove.value <= 0 { break; }
        var cut := CutRow(row, toRemove.value);
        toRemove := Some(toRemove.value - TakenFrom(row, toRemove.value));
        match cut {
          case Gone =>
          case Shrunk(left) =>
            Regroup(RemoveFrom(rest, orderId, toRemove, now, next).rows, left, tail);
            tail := [left] + tail;
          case Requeued(left) =>
            next := next + 1.0;
            var shown := left.(time := now, sequence := Some(next));
            Regroup(RemoveFrom(rest, orderId, toRemove, now, next).rows, shown, tail);
            tail := [shown] + tail;
        }
      }
      i := i - 1;
    }
    s := Sweep(rows[..i] + tail, toRemove, next);
  }

  lemma Regroup(a: seq<Row>, row: Row, b: seq<Row>)
    ensures a + [row] + b == a + ([row] + b)
  {
  }

  /** Drops the expired virtual rows of one side, walking it from the back. */
  method PruneRows(rows: seq<Row>, tick: int) returns (kept: seq<Row>)
    ensures kept == Unexpired(rows, tick)
  {
    kept := [];
    var i := |rows|;
    while i > 0
      invariant 0 <= i <= |rows| && kept == Unexpired(rows[i..], tick)
    {
      i := i - 1;
      assert rows[i..][1..] == rows[i + 1..];
      if !Expired(rows[i], tick) { kept := [rows[i]] + kept; }
    }
    assert rows[0..] == rows;
  }

  /** Builds the computed ladder rung by rung, numbering its levels as it goes. */
  method BuildLevels(ladder: seq<Rung>, now: real, counter: real) returns (levels: Levels, next: real)
    ensures (levels, next) == Climb(ladder, now, counter)
  {
    levels, next := Levels([], [], false, false), counter;
    for k := 0 to |ladder|
      invariant (levels, next) == Climb(ladder[..k], now, counter)
    {
      assert ladder[..k + 1][..k] == ladder[..k];
      assert levels.asks + [] == levels.asks && levels.bids + [] == levels.bids;
      var rung := ladder[k];
      if rung.ask.Some? {
        next := next + 1.0;
        levels := levels.(asks := levels.asks + [Quote(rung.ask.value.price, rung.ask.value.size, Some(now),
                                                       Some(next))]);
      }
      if rung.bid.Some? {
        next := next + 1.0;
        levels := levels.(bids := levels.bids + [Quote(rung.bid.value.price, rung.bid.value.size, Some(now),
                                                       Some(next))]);
      }
    }
    assert ladder[..|ladder|] == ladder;
  }

  method ApplyChange(d: Desk, c: Change, now: real, counter: real) returns (r: Applied)
    ensures r == Apply(d, c, now, counter)
  {
    hide RemoveFrom, Unexpired, Climb;
    match c {
      case Refresh(ladder, sealedUp, sealedDown) =>
        var levels, next := BuildLevels(ladder, now, counter);
        return Applied(d.(synthetic := Some(levels.(sealedUp := sealedUp, sealedDown := sealedDown))), next);
      case Prune(tick) =>
        if d.resting.None? { return Applied(d, counter); }
        var bids := PruneRows(d.resting.value.bids, tick);
        var asks := PruneRows(d.resting.value.asks, tick);
        return Applied(d.(resting := Some(Book(bids, asks))), counter);
      case Remove(orderId, shares) =>
        if d.resting.None? { return Applied(d, counter); }
        var bids := RemoveRows(d.resting.value.bids, orderId, shares, now, counter);
        var asks := RemoveRows(d.resting.value.asks, orderId, bids.wanted, now, bids.counter);
        return Applied(d.(resting := Some(Book(Sorting.SortBy(RowOrder(false), bids.rows),
                                               Sorting.SortBy(RowOrder(true), asks.rows)))), asks.counter);
      case _ =>
        var row := NewRow(c);
        if row.None? { return Applied(d, counter); }
        var stamped, b := row.value.(time := now, sequence := Some(counter + 1.0)), BookOf(d);
        var book := if c.side.Buying() then b.(bids := Added(b.bids, stamped, false))
          else b.(asks := Added(b.asks, stamped, true));
        return Applied(d.(resting := Some(book)), counter + 1.0);
    }
  }
}
