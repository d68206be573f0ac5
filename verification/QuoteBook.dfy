/**
 One symbol's books and the changes that arrive for them. `Apply` stamps and sorts as the engine
 does; `ApplyBare` works on rows without stamps, where a new row simply goes behind its price
 level. `ChangeIsStampBlind` says that the stamps never decide anything else.
 */
module QuoteBook {
  import opened Wrappers
  import opened Numbers
  import opened Liquidity
  import opened PlanContract
  import Sorting

  datatype Book = Book(bids: seq<Row>, asks: seq<Row>)

  /** Computed depth, best level first. */
  datatype Levels = Levels(bids: seq<Quote>, asks: seq<Quote>, sealedUp: bool, sealedDown: bool)

  /** A symbol's resting orders and its computed depth; either may not exist yet. */
  datatype Desk = Desk(resting: Option<Book>, synthetic: Option<Levels>)

  datatype Level = Level(price: int, size: int)

  /** One step of the computed ladder; a sealed side has no level. */
  datatype Rung = Rung(ask: Option<Level>, bid: Option<Level>)

  datatype Change =
    | Place(orderId: Option<string>, account: Option<string>, side: Side, price: int, qty: int, display: Option<int>,
            hidden: Option<int>)
    | PlaceVirtual(orderId: Option<string>, side: Side, price: int, qty: int, expiresAtTick: int, mmId: Option<string>,
                   tag: Option<string>)
    | Remove(orderId: Option<string>, shares: Option<int>)
    | Prune(tick: int)
    | Refresh(ladder: seq<Rung>, sealedUp: bool, sealedDown: bool)

  const NO_BOOK := Book([], [])

  /** The row that a placement adds, still without stamps; `None` for a placement that is ignored. */
  function NewRow(c: Change): Option<Row>
    requires c.Place? || c.PlaceVirtual?
  {
    if c.price <= 0 || c.qty <= 0 then None
    else
      match c
      case Place(orderId, account, side, price, qty, display, hidden) =>
        var shown := if display.Some? && display.value != 0 then display.value else qty;
        Some(Row(Label(orderId, side, false, 0, None, None), account, price,
                 if shown <= qty then shown else qty, 0.0, None,
                 Some(shown), Some(if hidden.Some? then hidden.value else 0)))
      case PlaceVirtual(orderId, side, price, qty, expiresAtTick, mmId, tag) =>
        Some(Row(Label(orderId, side, true, expiresAtTick, mmId, tag), None, price, qty, 0.0, None, None, None))
  }

  predicate Expired(row: Row, tick: int) { row.mark.virtual && row.mark.expiresAtTick <= tick }

  function Unexpired(rows: seq<Row>, tick: int): seq<Row> {
    if rows == [] then [] else (if Expired(rows[0], tick) then [] else [rows[0]]) + Unexpired(rows[1..], tick)
  }

  function Shown(row: Row): int {
    if row.displayQty.Some? && row.displayQty.value != 0 then row.displayQty.value else row.qty
  }

  /** What taking `n` shares off a row leaves; an iceberg whose visible part is gone shows its next part. */
  datatype Cut = Shrunk(row: Row) | Requeued(row: Row) | Gone

  function CutRow(row: Row, n: int): Cut {
    var take := Lesser(n, row.qty + HiddenOf(row));
    var left := row.qty + HiddenOf(row) - take;
    if take < row.qty then Shrunk(row.(qty := row.qty - take))
    else if left > 0 then Requeued(row.(qty := Lesser(Shown(row), left),
                                        hiddenQty := Some(left - Lesser(Shown(row), left))))
    else Gone
  }

  function TakenFrom(row: Row, n: int): int { Lesser(n, row.qty + HiddenOf(row)) }

  datatype Sweep = Sweep(rows: seq<Row>, wanted: Option<int>, counter: real)

  /** Removes an order's rows, the last one first: all of them, or as many shares as wanted. */
  function RemoveFrom(rows: seq<Row>, orderId: Option<string>, wanted: Option<int>, now: real, counter: real): Sweep {
    if rows == [] then Sweep([], wanted, counter)
    else
      var n := |rows| - 1;
      var row, rest := rows[n], rows[..n];
      if row.mark.orderId != orderId then
        var s := RemoveFrom(rest, orderId, wanted, now, counter);
        s.(rows := s.rows + [row])
      else if wanted.None? then RemoveFrom(rest, orderId, wanted, now, counter)
      else if wanted.value <= 0 then Sweep(rows, wanted, counter)
      else
        var more := Some(wanted.value - TakenFrom(row, wanted.value));
        match CutRow(row, wanted.value)
        case Gone => RemoveFrom(rest, orderId, more, now, counter)
        case Shrunk(left) =>
          var s := RemoveFrom(rest, orderId, more, now, counter);
          s.(rows := s.rows + [left])
        case Requeued(left) =>
          var s := RemoveFrom(rest, orderId, more, now, counter + 1.0);
          s.(rows := s.rows + [left.(time := now, sequence := Some(counter + 1.0))])
  }

  /** Price and clock only; a stable sort keeps arrivals in order. */
  predicate ClockBefore(a: Row, b: Row, up: bool) {
    if a.price != b.price then (if up then a.price < b.price else a.price > b.price) else a.time < b.time
  }

  function ClockOrder(up: bool): (Row, Row) -> bool { (a, b) => !ClockBefore(b, a, up) }

  function Added(rows: seq<Row>, row: Row, up: bool): seq<Row> { Sorting.SortBy(ClockOrder(up), rows + [row]) }

  function Climb(ladder: seq<Rung>, now: real, counter: real): (Levels, real) {
    if ladder == [] then (Levels([], [], false, false), counter)
    else
      var below := Climb(ladder[..|ladder| - 1], now, counter);
      var rung, l, at := ladder[|ladder| - 1], below.0, below.1;
      var afterAsk := if rung.ask.Some? then at + 1.0 else at;
      var afterBid := if rung.bid.Some? then afterAsk + 1.0 else afterAsk;
      (l.(asks := l.asks + if rung.ask.Some? then [Quote(rung.ask.value.price, rung.ask.value.size, Some(now),
                                                         Some(afterAsk))] else [],
          bids := l.bids + if rung.bid.Some? then [Quote(rung.bid.value.price, rung.bid.value.size, Some(now),
                                                         Some(afterBid))] else []),
       afterBid)
  }

  datatype Applied = Applied(desk: Desk, counter: real)

  function BookOf(d: Desk): Book { if d.resting.Some? then d.resting.value else NO_BOOK }

  /** A change as it happens, at clock `now` with the engine's sequence counter. */
  function Apply(d: Desk, c: Change, now: real, counter: real): Applied {
    match c
    case Refresh(ladder, sealedUp, sealedDown) =>
      var (levels, after) := Climb(ladder, now, counter);
      Applied(d.(synthetic := Some(levels.(sealedUp := sealedUp, sealedDown := sealedDown))), after)
    case Prune(tick) =>
      if d.resting.None? then Applied(d, counter)
      else Applied(d.(resting := Some(Book(Unexpired(d.resting.value.bids, tick),
                                           Unexpired(d.resting.value.asks, tick)))), counter)
    case Remove(orderId, shares) =>
      if d.resting.None? then Applied(d, counter)
      else
        var bids := RemoveFrom(d.resting.value.bids, orderId, shares, now, counter);
        var asks := RemoveFrom(d.resting.value.asks, orderId, bids.wanted, now, bids.counter);
        Applied(d.(resting := Some(Book(Sorting.SortBy(RowOrder(false), bids.rows),
                                        Sorting.SortBy(RowOrder(true), asks.rows)))), asks.counter)
    case _ =>
      var row := NewRow(c);
      if row.None? then Applied(d, counter)
      else
        var stamped, b := row.value.(time := now, sequence := Some(counter + 1.0)), BookOf(d);
        var after := if c.side.Buying() then b.(bids := Added(b.bids, stamped, false))
          else b.(asks := Added(b.asks, stamped, true));
        Applied(d.(resting := Some(after)),
                counter + 1.0)
  }

  // ---- The same changes without stamps ----

  function Bare(row: Row): Row { row.(time := 0.0, sequence := None) }

  function BareRows(rows: seq<Row>): (r: seq<Row>)
    ensures |r| == |rows| && forall i :: 0 <= i < |r| ==> r[i] == Bare(rows[i])
  {
    seq(|rows|, i requires 0 <= i < |rows| => Bare(rows[i]))
  }

  function BareQuotes(quotes: seq<Quote>): (r: seq<Quote>)
    ensures |r| == |quotes| && forall i :: 0 <= i < |r| ==> r[i] == quotes[i].(time := None, sequence := None)
  {
    seq(|quotes|, i requires 0 <= i < |quotes| => quotes[i].(time := None, sequence := None))
  }

  function BareBook(b: Book): Book { Book(BareRows(b.bids), BareRows(b.asks)) }

  function BareLevels(l: Levels): Levels { l.(bids := BareQuotes(l.bids), asks := BareQuotes(l.asks)) }

  function BareDesk(d: Desk): Desk {
    Desk(if d.resting.Some? then Some(BareBook(d.resting.value)) else None,
         if d.synthetic.Some? then Some(BareLevels(d.synthetic.value)) else None)
  }

  /** A price that is served before `p`, or with it. */
  predicate AtLeastAsGood(q: int, p: int, up: bool) { if up then q <= p else q >= p }

  /** Behind everything at the row's price or better. */
  function Behind(rows: seq<Row>, row: Row, up: bool): seq<Row> {
    if rows != [] && AtLeastAsGood(rows[0].price, row.price, up) then [rows[0]] + Behind(rows[1..], row, up)
    else [row] + rows
  }

  datatype BareSweep = BareSweep(rows: seq<Row>, wanted: Option<int>, requeued: Option<Row>)

  function BareRemove(rows: seq<Row>, orderId: Option<string>, wanted: Option<int>): BareSweep {
    if rows == [] then BareSweep([], wanted, None)
    else
      var n := |rows| - 1;
      var row, rest := rows[n], rows[..n];
      if row.mark.orderId != orderId then
        var s := BareRemove(rest, orderId, wanted);
        s.(rows := s.rows + [row])
      else if wanted.None? then BareRemove(rest, orderId, wanted)
      else if wanted.value <= 0 then BareSweep(rows, wanted, None)
      else
        var more := Some(wanted.value - TakenFrom(row, wanted.value));
        match CutRow(row, wanted.value)
        case Gone => BareRemove(rest, orderId, more)
        case Shrunk(left) =>
          var s := BareRemove(rest, orderId, more);
          s.(rows := s.rows + [left])
        case Requeued(left) => BareSweep(rest, more, Some(left))
  }

  function Settled(s: BareSweep, up: bool): seq<Row> {
    if s.requeued.Some? then Behind(s.rows, s.requeued.value, up) else s.rows
  }

  function BareClimb(ladder: seq<Rung>): Levels {
    if ladder == [] then Levels([], [], false, false)
    else
      var rung, l := ladder[|ladder| - 1], BareClimb(ladder[..|ladder| - 1]);
      l.(asks := l.asks + if rung.ask.Some? then [Quote(rung.ask.value.price, rung.ask.value.size, None, None)] else [],
         bids := l.bids + if rung.bid.Some? then [Quote(rung.bid.value.price, rung.bid.value.size, None, None)] else [])
  }

  /** A change on books that carry no stamps. */
  function ApplyBare(d: Desk, c: Change): Desk {
    match c
    case Refresh(ladder, sealedUp, sealedDown) =>
      d.(synthetic := Some(BareClimb(ladder).(sealedUp := sealedUp, sealedDown := sealedDown)))
    case Prune(tick) =>
      if d.resting.None? then d
      else d.(resting := Some(Book(Unexpired(d.resting.value.bids, tick), Unexpired(d.resting.value.asks, tick))))
    case Remove(orderId, shares) =>
      if d.resting.None? then d
      else
        var bids := BareRemove(d.resting.value.bids, orderId, shares);
        var asks := BareRemove(d.resting.value.asks, orderId, bids.wanted);
        d.(resting := Some(Book(Settled(bids, false), Settled(asks, true))))
    case _ =>
      var row := NewRow(c);
      if row.None? then d
      else
        var b := BookOf(d);
        var after := if c.side.Buying() then b.(bids := Behind(b.bids, row.value, false))
          else b.(asks := Behind(b.asks, row.value, true));
        d.(resting := Some(after))
  }

  function ApplyAllBare(d: Desk, changes: seq<Change>): Desk {
    if changes == [] then d else ApplyBare(ApplyAllBare(d, changes[..|changes| - 1]), changes[|changes| - 1])
  }
}
