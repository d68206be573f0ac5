/** What a tape does: the state of an experiment as a value, and the fold of a tape over it. */
module LabReplay {
  import opened Wrappers
  import opened LabState
  import opened LabFlow
  import opened LabSweep
  import opened LabSubmit
  import opened LabBook
  import opened LabView
  import opened LabTape
  import opened LabConfig

  const VIEW_DEPTH := 1_000

  /** What a sample records. `mid2` is twice the mid price; empty sides have no quote. */
  datatype Point = Point(tick: int, mid2: int, last: int, fundamental: int, publicValue: int, bid: Option<nat>,
                         ask: Option<nat>,
                         spread: Option<int>, bidDepth: nat, askDepth: nat, imbalance: Option<real>, ofi: int,
                         volume: nat,
                         twoSided: bool, makerInventory: int)

  /** All that an experiment holds, but for its tape. */
  datatype World = World(book: Book, fundamental: int, publicValue: int, points: seq<Point>, flowSeen: int,
                         sampledTrades: nat, lastMid2: int)

  function DepthOf(levels: seq<Level>): nat {
    if levels == [] then 0 else DepthOf(levels[..|levels| - 1]) + levels[|levels| - 1].quantity
  }

  function VolumeOf(trades: seq<Trade>): nat {
    if trades == [] then 0 else VolumeOf(trades[..|trades| - 1]) + trades[|trades| - 1].quantity
  }

  /** How far the makers are from their targets. */
  function MakerInventory(ids: seq<string>, accounts: map<string, Account>): int {
    if ids == [] then 0
    else
      var id := ids[|ids| - 1];
      MakerInventory(ids[..|ids| - 1], accounts)
      + if id in accounts && accounts[id].role == Maker then accounts[id].inventory - accounts[id].targetInventory
        else 0
  }

  function Imbalance(t: Top): Option<real> {
    if t.bidSize + t.askSize == 0 then None
    else Some((t.bidSize as real - t.askSize as real) / (t.bidSize + t.askSize) as real)
  }

  function Since(trades: seq<Trade>, n: nat): seq<Trade> { if n <= |trades| then trades[n..] else [] }

  /** A sample of the book at the end of a tick. */
  function SampleOf(w: World, tick: int): World {
    var b := w.book;
    var t := TopOf(b.bids, b.asks);
    var twoSided := t.bid.Some? && t.ask.Some?;
    var mid2 := if twoSided then t.bid.value + t.ask.value else w.lastMid2;
    var point := Point(tick, mid2, if b.trades == [] then INITIAL_PRICE else b.trades[|b.trades| - 1].price,
                       w.fundamental, w.publicValue,
                       t.bid, t.ask, if twoSided then Some(t.ask.value as int - t.bid.value as int) else None,
                       DepthOf(Grouping([], b.bids, VIEW_DEPTH)), DepthOf(Grouping([], b.asks, VIEW_DEPTH)),
                       Imbalance(t),
                       b.flow - w.flowSeen, VolumeOf(Since(b.trades, w.sampledTrades)), twoSided,
                       MakerInventory(b.ids, b.accounts));
    w.(points := w.points + [point], flowSeen := b.flow, sampledTrades := |b.trades|, lastMid2 := mid2)
  }

  function EventOf(e: Entry): Event
    requires e.Ordered?
  {
    Event(e.id, e.actor, e.side, e.quantity, e.price, e.sequence, e.tick)
  }

  /** One entry of a tape takes effect. */
  function AfterEntry(w: World, e: Entry): World {
    match e
    case Fundamental(_, _, value) => w.(fundamental := value)
    case Public(_, _, value) => w.(publicValue := value)
    case Ordered(_, _, _, _, _, _, _) => w.(book := Submitted(w.book, EventOf(e)).book)
    case Cancelled(_, _, actor, id) => w.(book := AfterCancel(w.book, actor, id))
    case Sampled(_, tick) => SampleOf(w, tick)
  }

  function StartOf(c: Config): World
    requires Normal(c)
  {
    World(OpenedBook(CreateAccounts(c), 5), INITIAL_PRICE, INITIAL_PRICE, [], 0, 0, 2 * INITIAL_PRICE)
  }

  /** The state that a tape leads to, whoever wrote it. */
  function Replay(c: Config, events: seq<Entry>): World
    requires Normal(c)
  {
    if events == [] then StartOf(c) else AfterEntry(Replay(c, events[..|events| - 1]), events[|events| - 1])
  }

  lemma ReplayGrows(c: Config, events: seq<Entry>, e: Entry)
    requires Normal(c)
    ensures Replay(c, events + [e]) == AfterEntry(Replay(c, events), e)
  {
    hide AfterEntry;
    assert (events + [e])[..|events|] == events;
  }

  /** What a report tells besides tape and statistics. */
  datatype Report = Report(trades: seq<Trade>, points: seq<Point>, ids: seq<string>, accounts: map<string, Account>,
                           feePool: int)

  function ReportOf(w: World): Report { Report(w.book.trades, w.points, w.book.ids, w.book.accounts, w.book.feePool) }
}
