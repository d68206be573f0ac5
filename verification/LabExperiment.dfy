/**
 The experiment: makers, noise traders, informed traders and one parent order write a tape by acting
 on the laboratory book, tick by tick. `Replay` of the tape is the state at every moment, so whoever
 reads the tape again stands in the same state. `draw` is the source of randomness.
 */
module LabExperiment {
  import opened Wrappers
  import opened Numbers
  import opened LabState
  import opened LabFlow
  import opened LabRest
  import opened LabSweep
  import opened LabSubmit
  import opened LabBook
  import opened LabView
  import opened LabCensus
  import opened LabTape
  import opened LabConfig
  import opened LabReplay
  import opened LabSession
  import Schedule
  import Sorting

  lemma {:induction false} TapeGrows(events: seq<Entry>, b: seq<Entry>, tick: nat, ticks: nat, first: int,
                                     actors: set<string>)
    requires tick <= ticks && IsTape(events, tick, ticks, first, actors) && IsBlock(b, ticks, first + |events|, actors)
    ensures IsTape(events + b, tick, ticks + 1, first, actors)
    decreases ticks - tick
  {
    hide IsBlock;
    var all := events + b;
    if tick == ticks {
      BlockIsNotEmpty(b, ticks, first, actors);
      assert all == b && all[..|b|] == b && all[|b|..] == [];
      assert IsTape(all[|b|..], tick + 1, ticks + 1, first + |b|, actors);
    } else {
      var k :| 0 < k <= |events| && IsBlock(events[..k], tick, first, actors)
               && IsTape(events[k..], tick + 1, ticks, first + k, actors);
      TapeGrows(events[k..], b, tick + 1, ticks, first + k, actors);
      assert all[..k] == events[..k] && all[k..] == events[k..] + b;
    }
  }

  lemma BlockIsNotEmpty(b: seq<Entry>, tick: int, first: int, actors: set<string>)
    requires IsBlock(b, tick, first, actors)
    ensures |b| >= 3
  {
  }

  /** A block under way: both values, and actions so far. */
  ghost predicate IsOpening(b: seq<Entry>, tick: int, first: int, actors: set<string>) {
    && |b| >= 2
    && (forall i :: 0 <= i < |b| ==> b[i].sequence == first + i && b[i].tick == tick)
    && b[0].Fundamental? && b[1].Public? && ValuesFit(b[0]) && ValuesFit(b[1])
    && (forall i :: 2 <= i < |b| ==> IsAction(b[i], actors))
  }

  lemma OpeningGrows(b: seq<Entry>, e: Entry, tick: int, first: int, actors: set<string>)
    requires IsOpening(b, tick, first, actors) && e.sequence == first + |b| && e.tick == tick
    ensures IsAction(e, actors) ==> IsOpening(b + [e], tick, first, actors)
    ensures e.Sampled? ==> IsBlock(b + [e], tick, first, actors)
  {
  }

  class Experiment {
    const config: Config
    const book: FiniteOrderBook
    var events: seq<Entry>
    var points: seq<Point>
    var fundamental: int
    var publicValue: int
    /** The book's flow, and its number of trades, at the last sample. */
    var flowSeen: int
    var sampledTrades: nat
    var lastMid2: int
    /** Where the current tick's events begin, and how many orders and cancels there have been. */
    ghost var start: nat
    ghost var orders: nat
    ghost var cancels: nat

    ghost function Now(): World
      reads this, book
    {
      World(book.View(), fundamental, publicValue, points, flowSeen, sampledTrades, lastMid2)
    }

    /** The state is the one that the tape so far leads to. */
    ghost predicate Running()
      reads this, book
    {
      Normal(config) && book.Valid() && Now() == Replay(config, events)
    }

    /** Every cancel removed an order that rested, so there are at most as many cancels as orders. */
    ghost predicate Valid()
      reads this, book
    {
      && Running() && Tagged(book.View()) && book.accounts.Keys == Actors(config)
      && cancels + Census(book.View()) <= orders
      && 5_000 <= fundamental <= 15_000 && 5_000 <= publicValue <= 15_000
    }

    /** Tick `tick` is under way, and it has added at most `n` orders. */
    ghost predicate Open(tick: nat, n: nat)
      reads this, book
    {
      && Valid() && tick < 300 && start <= |events| && n <= 29
      && IsTape(events[..start], 0, tick, 0, Actors(config)) && IsOpening(events[start..], tick, start, Actors(config))
      && |events| == 3 * tick + 2 + orders + cancels && orders <= 29 * tick + n
    }

    /** All ticks before `tick` are done. */
    ghost predicate Closed(tick: nat)
      reads this, book
    {
      && Valid() && tick <= 300 && IsTape(events, 0, tick, 0, Actors(config))
      && |events| == 3 * tick + orders + cancels && orders <= 29 * tick
    }

    constructor (config: Config)
      requires Normal(config)
      ensures Closed(0) && this.config == config && fresh(book) && events == []
    {
      AccountsAreAcceptable(config);
      this.config := config;
      book := new FiniteOrderBook(CreateAccounts(config), 5);
      events, points, fundamental, publicValue := [], [], INITIAL_PRICE, INITIAL_PRICE;
      flowSeen, sampledTrades, lastMid2 := 0, 0, 2 * INITIAL_PRICE;
      start, orders, cancels := 0, 0, 0;
      new;
      hide AccountMap, AcceptableAccounts;
      AccountsAreActors(config, book.View());
    }

    /** Records an event and lets it take effect. */
    method Apply(e: Entry) returns (ghost mid: Book, ghost out: Outcome, ghost at: Option<(bool, nat)>)
      requires Running()
      modifies this`events, this`points, this`fundamental, this`publicValue, this`flowSeen, this`sampledTrades
      modifies this`lastMid2, book
      ensures Running() && events == old(events) + [e] && Now() == AfterEntry(old(Now()), e)
      ensures e.Ordered? && Refusal(old(book.View()), EventOf(e)).None? ==>
        Handled(old(book.View()), mid, book.View(), EventOf(e), out)
      ensures e.Cancelled? ==> Withdrawn(old(book.View()), book.View(), e.actor, e.id, at)
    {
      hide ValidBook, Replay, Submitted, AfterCancel, Handled, Refusal, Grouping, DepthOf, VolumeOf, MakerInventory,
           TopOf;
      ReplayGrows(config, events, e);
      mid, out, at := book.View(), Rejected(InvalidId, 0), None;
      events := events + [e];
      match e {
        case Fundamental(_, _, value) => fundamental := value;
        case Public(_, _, value) => publicValue := value;
        case Sampled(_, tick) => Sample(tick);
        case Cancelled(_, _, actor, id) =>
          var released;
          released, at := book.Cancel(actor, id);
        case Ordered(_, _, _, _, _, _, _) =>
          out, mid := book.Submit(EventOf(e));
      }
    }

    method Sample(tick: int)
      requires book.Valid()
      modifies this`points, this`flowSeen, this`sampledTrades, this`lastMid2
      ensures Now() == SampleOf(old(Now()), tick)
    {
      hide ValidBook, Grouping, DepthOf, VolumeOf, MakerInventory, TopOf, Summarises;
      assert Sorting.Ordered(BookOrder(true), book.bids) && Sorting.Ordered(BookOrder(false), book.asks) by {
        SidesAreOrdered(book.View(), book.totalCash, book.totalShares);
      }
      var bids := Aggregate(book.bids, VIEW_DEPTH, true);
      var asks := Aggregate(book.asks, VIEW_DEPTH, false);
      var top := book.Quotes();
      var trades := book.tradeLog;
      var twoSided := top.bid.Some? && top.ask.Some?;
      TopHasPrices(book.bids, book.asks);
      var last := if trades != [] then trades[|trades| - 1].price else INITIAL_PRICE;
      if twoSided { lastMid2 := top.bid.value + top.ask.value; }
      points := points + [Point(tick, lastMid2, last, fundamental, publicValue, top.bid, top.ask,
                                if twoSided then Some(top.ask.value as int - top.bid.value as int) else None,
                                DepthOf(bids), DepthOf(asks), Imbalance(top), book.quoteFlow - flowSeen,
                                VolumeOf(Since(trades, sampledTrades)), twoSided,
                                MakerInventory(book.accountIds, book.accounts))];
      flowSeen, sampledTrades := book.quoteFlow, |trades|;
    }

    /** One event more in the current tick. */
    lemma EventAppends(tick: nat, n: nat, before: seq<Entry>, e: Entry)
      requires Normal(config) && start <= |before|
      requires IsTape(before[..start], 0, tick, 0, Actors(config))
      requires IsOpening(before[start..], tick, start, Actors(config))
      requires e.sequence == |before| && e.tick == tick && IsAction(e, Actors(config))
      ensures var after := before + [e];
        IsTape(after[..start], 0, tick, 0, Actors(config)) && IsOpening(after[start..], tick, start, Actors(config))
    {
      hide IsTape, IsOpening, IsAction;
      OpeningGrows(before[start..], e, tick, start, Actors(config));
      assert (before + [e])[..start] == before[..start] && (before + [e])[start..] == before[start..] + [e];
    }

    method PlaceOrder(tick: nat, actor: string, side: Side, quantity: int, price: Option<int>, ghost n: nat)
      requires Open(tick, n) && n < 29 && actor in Actors(config) && |actor| <= 10
      requires 1 <= quantity <= 50_000 && (price.Some? ==> 100 <= price.value <= 10_000_000)
      modifies this`events, this`points, this`fundamental, this`publicValue, this`flowSeen, this`sampledTrades
      modifies this`lastMid2, this`orders, book
      ensures Open(tick, n + 1) && cancels == old(cancels)
      ensures events == WithOrder(old(events), tick, actor, side, quantity, price)
    {
      hide IsTape, IsOpening, Tagged, Actors, ValidBook, Handled, Refusal, Submitted, Replay;
      DecimalIsShort(|events|);
      var e := OrderEntry(|events|, tick, actor, side, quantity, price);
      EventAppends(tick, n, events, e);
      ghost var before := book.View();
      ghost var mid, out, at;
      mid, out, at := Apply(e);
      if Refusal(before, EventOf(e)).None? { HandledCensus(before, mid, book.View(), EventOf(e), out); }
      else { RefusedStays(before, EventOf(e)); }
      orders := orders + 1;
    }

    /** What is reported at the end, besides the tape. */
    method Summary() returns (report: Report)
      requires Running()
      ensures report == ReportOf(Replay(config, events))
    {
      hide Replay, ValidBook;
      report := Report(book.tradeLog, points, book.accountIds, book.accounts, book.feePool);
    }

    /** Cancels the actor's resting orders that are at least `age` ticks old. */
    method CancelOld(tick: nat, actor: string, age: int, ghost n: nat)
      requires Open(tick, n) && actor in Actors(config) && IsIdentifier(actor)
      modifies this`events, this`points, this`fundamental, this`publicValue, this`flowSeen, this`sampledTrades
      modifies this`lastMid2, this`cancels, book
      ensures Open(tick, n) && orders == old(orders)
      ensures events == OldCancelled(config, old(events), tick, actor, age)
    {
      hide IsTape, IsOpening, Tagged, Actors, ValidBook, IsIdentifier, CancelBook, OwnOrder, Rests, Replay, WithCancels;
      var own := OrdersOf(book.bids + book.asks, actor);
      OwnOrdersAreThere(book.View(), book.totalCash, book.totalShares, actor, own);
      NothingCancelled(events, tick, actor, own, age);
      for k := 0 to |own|
        invariant Open(tick, n) && orders == old(orders)
        invariant events == WithCancels(old(events), tick, actor, own[..k], age)
        invariant forall j :: k <= j < |own| ==> Rests(book.View(), actor, own[j].id)
      {
        CancelsGrow(old(events), tick, actor, own, k, age);
        if tick - own[k].tick >= age { CancelOne(tick, actor, own, k, n); }
      }
      assert own[..|own|] == own;
    }

    method CancelOne(tick: nat, actor: string, own: seq<Order>, k: nat, ghost n: nat)
      requires Open(tick, n) && actor in Actors(config) && IsIdentifier(actor) && k < |own|
      requires forall j :: k <= j < |own| ==> Rests(book.View(), actor, own[j].id)
      requires forall i, j :: 0 <= i < j < |own| ==> own[i].id != own[j].id
      modifies this`events, this`points, this`fundamental, this`publicValue, this`flowSeen, this`sampledTrades
      modifies this`lastMid2, this`cancels, book
      ensures Open(tick, n) && orders == old(orders)
      ensures events == old(events) + [Cancelled(|old(events)|, tick, actor, own[k].id)]
      ensures forall j :: k < j < |own| ==> Rests(book.View(), actor, own[j].id)
    {
      hide IsTape, IsOpening, Tagged, Actors, ValidBook, IsIdentifier, CancelBook, OwnOrder, Rests, Replay, AfterCancel;
      var id := own[k].id;
      ghost var before := book.View();
      RestingIsTagged(before, actor, id);
      IdentifierIsShort(id);
      var e := Cancelled(|events|, tick, actor, id);
      EventAppends(tick, n, events, e);
      ghost var mid, out, at;
      mid, out, at := Apply(e);
      RestsSomewhere(before, actor, id);
      ghost var buy, i := at.value.0, at.value.1;
      OwnIsThere(before, buy, i, actor, id);
      CancelCensus(before, buy, i);
      forall j | k < j < |own|
        ensures Rests(book.View(), actor, own[j].id)
      {
        CancelKeepsOthers(before, buy, i, actor, id, own[j].id);
      }
      cancels := cancels + 1;
    }

    /** Three quotes on either side of a centre price. */
    method PlaceQuotes(tick: nat, i: nat, center: int, width: int, ghost n: nat)
      requires Open(tick, n) && n <= 23 && i < 3 && 5_000 <= center <= 15_000 && 12 <= width <= 49
      modifies this`events, this`points, this`fundamental, this`publicValue, this`flowSeen, this`sampledTrades
      modifies this`lastMid2, this`orders, this`cancels, book
      ensures Open(tick, n + 6) && events == WithQuotes(config, old(events), tick, i, center, width, 3)
    {
      hide IsTape, IsOpening, Tagged, ValidBook, Actors, Replay, WithQuotes, OrderEntry;
      ActorIsKnown(config, i);
      ghost var m := n;
      NothingQuoted(config, events, tick, i, center, width);
      for level := 0 to 3
        invariant Open(tick, m) && m == n + 2 * level
        invariant events == WithQuotes(config, old(events), tick, i, center, width, level)
      {
        var distance := width + level * 18 + i * 2;
        var size := config.quoteSize + config.quoteSize * level / 3;
        SizeFits(config.quoteSize, level);
        QuotesGrow(config, old(events), tick, i, center, width, level);
        PlaceOrder(tick, MarketMaker(i), Buy, size, Some(center - distance), m);
        PlaceOrder(tick, MarketMaker(i), Sell, size, Some(center + distance), m + 1);
        m := m + 2;
      }
    }

    /** A maker withdraws its quotes and places new ones. */
    method Replenish(draw: Draw, tick: nat, i: nat, ghost n: nat) returns (ghost m: nat)
      requires Open(tick, n) && n <= 23 && i < 3
      modifies this`events, this`points, this`fundamental, this`publicValue, this`flowSeen, this`sampledTrades
      modifies this`lastMid2, this`orders, this`cancels, book
      ensures m <= n + 6 && Open(tick, m)
      ensures events == Replenished(config, draw, old(events), tick, i)
    {
      hide IsTape, IsOpening, Tagged, ValidBook, MakerCenter, Actors, Replay, WithQuotes, OldCancelled;
      m := n;
      if tick != 0 && tick % config.replenishEvery != i % config.replenishEvery { return; }
      var actor := MarketMaker(i);
      ActorIsKnown(config, i);
      CancelOld(tick, actor, 0, n);
      var account := book.accounts[actor];
      var mid2 := if book.bids != [] && book.asks != [] then book.bids[0].price + book.asks[0].price
        else 2 * publicValue;
      var center := MakerCenter(publicValue, mid2, account.inventory, account.targetInventory,
                                config.inventoryAversion);
      var lastPublic := if points != [] then points[|points| - 1].publicValue else INITIAL_PRICE;
      var move := Abs(publicValue - lastPublic);
      var width := 12 + (if move < 30 then move else 30) + draw(2, tick, i) % 8;
      PlaceQuotes(tick, i, center, width, n);
      m := n + 6;
    }

    /** A noise trader follows the public value or a coin. */
    method TradeNoise(draw: Draw, tick: nat, i: nat, ghost n: nat) returns (ghost m: nat)
      requires Open(tick, n) && n <= 28 && i < 6
      modifies this`events, this`points, this`fundamental, this`publicValue, this`flowSeen, this`sampledTrades
      modifies this`lastMid2, this`orders, this`cancels, book
      ensures m <= n + 1 && Open(tick, m)
      ensures events == NoiseTraded(config, draw, old(events), tick, i)
    {
      hide IsTape, IsOpening, Tagged, ValidBook, Actors, Replay, OldCancelled, OrderEntry, NoisePrice, NoiseSide,
           NoiseTrader;
      m := n;
      var actor := NoiseTrader(i);
      assert actor == AccountAt(config, i + 3).id;
      ActorIsKnown(config, i + 3);
      CancelOld(tick, actor, 12, n);
      if draw(3, tick, i) % 100 >= 50 { return; }
      var mid2 := if book.bids != [] && book.asks != [] then book.bids[0].price + book.asks[0].price
        else 2 * publicValue;
      var side := NoiseSide(2 * publicValue - mid2, draw(4, tick, i));
      var quantity := 10 + draw(5, tick, i) % 76;
      PlaceOrder(tick, actor, side, quantity, NoisePrice(draw, mid2, side, tick, i), n);
      m := n + 1;
    }

    /** An informed trader takes what is mispriced against the fundamental value. */
    method TradeInformed(draw: Draw, tick: nat, i: nat, ghost n: nat) returns (ghost m: nat)
      requires Open(tick, n) && n <= 28 && i < config.informedCount
      modifies this`events, this`points, this`fundamental, this`publicValue, this`flowSeen, this`sampledTrades
      modifies this`lastMid2, this`orders, this`cancels, book
      ensures m <= n + 1 && Open(tick, m)
      ensures events == InformedTraded(config, draw, old(events), tick, i)
    {
      hide IsTape, IsOpening, Tagged, ValidBook, Actors, Replay, OrderEntry;
      m := n;
      if draw(8, tick, i) % 100 >= 45 { return; }
      var edgeBuy := if book.asks == [] then 0 else fundamental - book.asks[0].price;
      var edgeSell := if book.bids == [] then 0 else book.bids[0].price - fundamental;
      if edgeBuy <= 12 && edgeSell <= 12 { return; }
      ActorIsKnown(config, i + 9);
      PlaceOrder(tick, InformedTrader(i), if edgeBuy > 12 then Side.Buy else Sell, 20 + draw(9, tick, i) % 61, None, n);
      m := n + 1;
    }

    /** A tick opens with the two values. */
    method OpenTick(tick: nat, value: int, public: int)
      requires Closed(tick) && tick < 300 && 5_000 <= value <= 15_000 && 5_000 <= public <= 15_000
      modifies this`events, this`points, this`fundamental, this`publicValue, this`flowSeen, this`sampledTrades
      modifies this`lastMid2, this`start, book
      ensures Open(tick, 0) && events == OpenedTick(old(events), tick, value, public)
    {
      hide IsTape, Tagged, ValidBook, Actors, Replay;
      start := |events|;
      ghost var before := events;
      ghost var mid, out, at;
      mid, out, at := Apply(Fundamental(|events|, tick, value));
      mid, out, at := Apply(Public(|events|, tick, public));
      assert events[..start] == before;
      assert events[start..] == [Fundamental(start, tick, value), Public(start + 1, tick, public)];
    }

    /** A tick closes with its sample. */
    method CloseTick(tick: nat, ghost n: nat)
      requires Open(tick, n)
      modifies this`events, this`points, this`fundamental, this`publicValue, this`flowSeen, this`sampledTrades
      modifies this`lastMid2, book
      ensures Closed(tick + 1) && events == old(events) + [Sampled(|old(events)|, tick)]
    {
      hide IsTape, IsOpening, IsBlock, Tagged, ValidBook, Actors, Replay, SampleOf;
      var e := Sampled(|events|, tick);
      OpeningGrows(events[start..], e, tick, start, Actors(config));
      TapeGrows(events[..start], events[start..] + [e], 0, tick, 0, Actors(config));
      assert events + [e] == events[..start] + (events[start..] + [e]);
      SampleMovesNothing(Now(), tick);
      ghost var mid, out, at;
      mid, out, at := Apply(e);
    }

    /** Everybody acts once. */
    method TradeTick(draw: Draw, tick: nat, parent: int) returns (ghost n: nat)
      requires Open(tick, 0) && 0 <= parent <= config.quantity
      modifies this`events, this`points, this`fundamental, this`publicValue, this`flowSeen, this`sampledTrades
      modifies this`lastMid2, this`orders, this`cancels, book
      ensures Open(tick, n) && events == TradedTick(config, draw, old(events), tick, parent)
    {
      hide Open, Replenished, NoiseTraded, InformedTraded, OrderEntry;
      OpenIsNormal(tick, 0);
      n := 0;
      for i := 0 to 3
        invariant n <= 6 * i && Open(tick, n) && events == MakersDone(config, draw, old(events), tick, i)
      {
        n := Replenish(draw, tick, i, n);
      }
      ghost var makers := events;
      for i := 0 to 6
        invariant n <= 18 + i && Open(tick, n) && events == NoiseDone(config, draw, makers, tick, i)
      {
        n := TradeNoise(draw, tick, i, n);
      }
      ghost var noise := events;
      for i := 0 to config.informedCount
        invariant n <= 24 + i && Open(tick, n) && events == InformedDone(config, draw, noise, tick, i)
      {
        n := TradeInformed(draw, tick, i, n);
      }
      if parent != 0 {
        ParentIsKnown(config);
        PlaceOrder(tick, PARENT, config.side, parent, None, n);
        n := n + 1;
      }
    }

    lemma OpenIsNormal(tick: nat, n: nat)
      requires Open(tick, n)
      ensures Normal(config)
    {
    }

    /** One tick, from its values to its sample. */
    method RunTick(draw: Draw, tick: nat, value: int, public: int, parent: int)
      requires Closed(tick) && tick < 300 && 5_000 <= value <= 15_000 && 5_000 <= public <= 15_000
      requires 0 <= parent <= config.quantity
      modifies this, book
      ensures Closed(tick + 1)
      ensures var done := TradedTick(config, draw, OpenedTick(old(events), tick, value, public), tick, parent);
        events == done + [Sampled(|done|, tick)]
    {
      hide Closed, Open, TradedTick, OpenedTick;
      ClosedMeans(tick);
      OpenTick(tick, value, public);
      ghost var n := TradeTick(draw, tick, parent);
      CloseTick(tick, n);
    }

    lemma ClosedMeans(tick: nat)
      requires Closed(tick)
      ensures Normal(config) && Now() == Replay(config, events) && IsTape(events, 0, tick, 0, Actors(config))
      ensures |events| <= 3 * tick + 2 * 29 * tick && cancels <= orders
    {
      hide IsTape, Tagged, ValidBook, Replay, Actors;
    }

    /** The fundamental value of the next tick: a small random step, and a jump when the news breaks. */
    method Drift(draw: Draw, tick: nat, value: int) returns (next: int)
      requires value == FundamentalAt(config, draw, tick)
      ensures next == FundamentalAt(config, draw, tick + 1)
    {
      hide FundamentalAt;
      ValuesGo(config, draw, tick);
      next := value + draw(1, tick, 0) % 7 - 3;
      if tick == config.ticks * 2 / 5 { next := next + RoundDiv(next * config.newsJumpBps, 10_000); }
      next := Clamp(next, 5_000, 15_000);
    }

    /**
     Runs the whole session. The tape is the policy's, one that the parser accepts, well within its
     limit, with a cancel only ever for an earlier order, and the state is the one it leads to.
     */
    method Generate(draw: Draw, policy: Schedule.Policy) returns (tape: seq<Entry>)
      requires Closed(0) && events == []
      modifies this, book
      ensures Closed(config.ticks) && tape == events == TapeOf(config, draw, policy, config.ticks)
      ensures Now() == Replay(config, tape)
      ensures IsTape(tape, 0, config.ticks, 0, Actors(config))
      ensures |tape| <= 3 * config.ticks + 2 * 29 * config.ticks && |tape| <= 18_300 <= LAB_MAX_EVENTS
      ensures cancels <= orders
    {
      hide Closed, IsTape, Actors, Replay, Schedule.Plan, FundamentalAt, TradedTick, OpenedTick, Session, RoundDiv,
           QuantityAt, Schedule.WellFormed;
      ClosedMeans(0);
      Schedule.WindowHasRoom(config.ticks);
      var slices := Schedule.PlannedSlices(config.quantity, policy, Schedule.ExecutionWindow(config.ticks));
      SlicesFit(slices, Schedule.ExecutionWindow(config.ticks), config.quantity);
      var value, values := INITIAL_PRICE, [];
      ValuesStart(config, draw, slices);
      for tick := 0 to config.ticks
        invariant Closed(tick) && value == FundamentalAt(config, draw, tick)
        invariant events == Session(config, draw, slices, tick)
        invariant |values| == tick && forall k: nat :: k < tick ==> values[k] == FundamentalAt(config, draw, k + 1)
      {
        ValuesStay(config, draw, tick);
        SessionGrows(config, draw, slices, tick);
        value := Drift(draw, tick, value);
        values := values + [value];
        if tick >= config.informationDelay { ValuesStay(config, draw, tick - config.informationDelay); }
        var public := if tick < config.informationDelay then INITIAL_PRICE else values[tick - config.informationDelay];
        RunTick(draw, tick, value, public, QuantityAt(slices, tick));
      }
      tape := events;
      ClosedMeans(config.ticks);
    }
  }

  lemma NothingCancelled(events: seq<Entry>, tick: nat, actor: string, own: seq<Order>, age: int)
    ensures WithCancels(events, tick, actor, own[..0], age) == events
  {
  }

  lemma CancelsGrow(events: seq<Entry>, tick: nat, actor: string, own: seq<Order>, k: nat, age: int)
    requires k < |own|
    ensures var before := WithCancels(events, tick, actor, own[..k], age);
      WithCancels(events, tick, actor, own[..k + 1], age)
        == if tick - own[k].tick >= age then before + [Cancelled(|before|, tick, actor, own[k].id)] else before
  {
    assert own[..k + 1][..k] == own[..k];
  }

  lemma NothingQuoted(c: Config, events: seq<Entry>, tick: nat, i: nat, center: int, width: int)
    ensures WithQuotes(c, events, tick, i, center, width, 0) == events
  {
  }

  lemma QuotesGrow(c: Config, events: seq<Entry>, tick: nat, i: nat, center: int, width: int, level: nat)
    ensures var distance, size := width + level * 18 + i * 2, c.quoteSize + c.quoteSize * level / 3;
      WithQuotes(c, events, tick, i, center, width, level + 1)
      == WithOrder(WithOrder(WithQuotes(c, events, tick, i, center, width, level), tick, MarketMaker(i), Buy, size,
                             Some(center - distance)),
                   tick, MarketMaker(i), Sell, size, Some(center + distance))
  {
    hide OrderEntry, MarketMaker;
  }

  /** A sample looks at the book and the values, and leaves them alone. */
  lemma SampleMovesNothing(w: World, tick: int)
    ensures var v := SampleOf(w, tick);
      v.book == w.book && v.fundamental == w.fundamental && v.publicValue == w.publicValue
  {
    hide Grouping, DepthOf, VolumeOf, MakerInventory, TopOf;
  }

  lemma ValuesStart(c: Config, draw: Draw, slices: seq<Schedule.Slice>)
    requires Normal(c)
    ensures FundamentalAt(c, draw, 0) == INITIAL_PRICE && Session(c, draw, slices, 0) == []
  {
  }

  lemma ValuesGo(c: Config, draw: Draw, tick: nat)
    ensures var moved := FundamentalAt(c, draw, tick) + draw(1, tick, 0) % 7 - 3;
      FundamentalAt(c, draw, tick + 1)
        == Clamp(if tick == c.ticks * 2 / 5 then moved + RoundDiv(moved * c.newsJumpBps, 10_000) else moved,
                 5_000, 15_000)
  {
  }

  lemma SessionGrows(c: Config, draw: Draw, slices: seq<Schedule.Slice>, tick: nat)
    requires Normal(c)
    ensures var done := TradedTick(c, draw,
                                   OpenedTick(Session(c, draw, slices, tick), tick, FundamentalAt(c, draw, tick + 1),
                                              PublicAt(c, draw, tick)), tick, QuantityAt(slices, tick));
      Session(c, draw, slices, tick + 1) == done + [Sampled(|done|, tick)]
  {
    hide TradedTick, OpenedTick, FundamentalAt, PublicAt;
  }

  lemma ValuesStay(c: Config, draw: Draw, tick: nat)
    ensures 5_000 <= FundamentalAt(c, draw, tick + 1) <= 15_000
  {
  }

  /** Reads a tape and lets it take effect, event by event. */
  method ReplayTape(config: Config, events: seq<Entry>) returns (error: Option<TapeError>, report: Report)
    requires Normal(config)
    ensures error.None? <==> |events| <= LAB_MAX_EVENTS && IsTape(events, 0, config.ticks, 0, Actors(config))
    ensures report == ReportOf(if error.None? then Replay(config, events) else StartOf(config))
  {
    hide IsTape, Replay, AfterEntry, OpenedBook, ValidBook, Actors, Handled, Withdrawn, Refusal, StartOf;
    var world := new Experiment(config);
    NothingReplayed(config);
    error := ParseTape(events, config.ticks, Actors(config));
    if error.None? {
      for k := 0 to |events|
        invariant world.config == config && world.Running() && world.events == events[..k]
        invariant fresh(world) && fresh(world.book)
      {
        ghost var mid, out, at;
        mid, out, at := world.Apply(events[k]);
      }
      assert events[..|events|] == events;
    }
    report := world.Summary();
  }

  lemma NothingReplayed(c: Config)
    requires Normal(c)
    ensures Replay(c, []) == StartOf(c)
  {
  }

  /**
   Every tape that is written can be read, and tells the same story: the same trades, points,
   accounts and fee pool.
   */
  method WriteAndRead(config: Config, draw: Draw, policy: Schedule.Policy)
    returns (tape: seq<Entry>, written: Report, error: Option<TapeError>, read: Report)
    requires Normal(config)
    ensures tape == TapeOf(config, draw, policy, config.ticks) && IsTape(tape, 0, config.ticks, 0, Actors(config))
    ensures error.None? && written == read == ReportOf(Replay(config, tape))
  {
    hide IsTape, Replay, TapeOf, Actors;
    var experiment := new Experiment(config);
    tape := experiment.Generate(draw, policy);
    written := experiment.Summary();
    error, read := ReplayTape(config, tape);
  }

  /** What a cancel did: took the caller's order away, or found none. */
  ghost predicate Withdrawn(before: Book, after: Book, actor: string, id: string, at: Option<(bool, nat)>) {
    && (at.Some? ==>
        OwnOrder(before, at.value.0, at.value.1, actor, id) && after == CancelBook(before, at.value.0, at.value.1))
    && (at.None? ==> after == before)
    && (at.None? && IsIdentifier(actor) && IsIdentifier(id) ==> forall buy, i :: !OwnOrder(before, buy, i, actor, id))
  }

  lemma SidesAreOrdered(b: Book, cash: int, shares: int)
    requires ValidBook(b, cash, shares)
    ensures Sorting.Ordered(BookOrder(true), b.bids) && Sorting.Ordered(BookOrder(false), b.asks)
  {
  }

  lemma TopHasPrices(bids: seq<Order>, asks: seq<Order>)
    ensures var t := TopOf(bids, asks); (t.bid.Some? <==> bids != []) && (t.ask.Some? <==> asks != [])
  {
  }

  lemma RefusedStays(b: Book, e: Event)
    requires Refusal(b, e).Some?
    ensures Submitted(b, e).book == b
  {
  }

  lemma {:induction false} PartsFit(slices: seq<Schedule.Slice>)
    requires forall i :: 0 <= i < |slices| ==> slices[i].quantity > 0
    ensures Schedule.Sent(slices) >= 0 && forall i :: 0 <= i < |slices| ==> slices[i].quantity <= Schedule.Sent(slices)
  {
    if slices != [] {
      PartsFit(slices[..|slices| - 1]);
      assert forall i :: 0 <= i < |slices| - 1 ==> slices[i] == slices[..|slices| - 1][i];
    }
  }

  lemma {:induction false} LookupFits(slices: seq<Schedule.Slice>, tick: int, bound: int)
    requires bound >= 0 && forall i :: 0 <= i < |slices| ==> 0 < slices[i].quantity <= bound
    ensures 0 <= QuantityAt(slices, tick) <= bound
  {
    if slices != [] { LookupFits(slices[1..], tick, bound); }
  }

  lemma SlicesFit(slices: seq<Schedule.Slice>, w: Schedule.Window, quantity: int)
    requires Schedule.WellFormed(slices, w) && 0 <= Schedule.Sent(slices) <= quantity
    ensures forall tick :: 0 <= QuantityAt(slices, tick) <= quantity
  {
    PartsFit(slices);
    forall tick
      ensures 0 <= QuantityAt(slices, tick) <= quantity
    {
      LookupFits(slices, tick, quantity);
    }
  }

  lemma SizeFits(quoteSize: int, level: int)
    requires 10 <= quoteSize <= 400 && 0 <= level <= 2
    ensures 1 <= quoteSize + quoteSize * level / 3 <= 50_000
  {
  }

  lemma RestsSomewhere(b: Book, actor: string, id: string)
    requires Rests(b, actor, id)
    ensures !(forall buy, i :: !OwnOrder(b, buy, i, actor, id))
  {
  }

  lemma OwnIsThere(b: Book, buy: bool, i: nat, actor: string, id: string)
    requires OwnOrder(b, buy, i, actor, id)
    ensures i < |SideOf(b, buy)| && SideOf(b, buy)[i].actor in b.accounts
  {
  }

  lemma OwnOrdersAreThere(b: Book, cash: int, shares: int, actor: string, own: seq<Order>)
    requires ValidBook(b, cash, shares) && actor in b.accounts && own == OrdersOf(b.bids + b.asks, actor)
    ensures forall k :: 0 <= k < |own| ==> Rests(b, actor, own[k].id)
    ensures forall j, k :: 0 <= j < k < |own| ==> own[j].id != own[k].id
  {
    hide AccountsOk, OrdersOk, Prioritised, Uncrossed, ReservationsExact, Conserved;
    OwnOrdersRest(b, actor, own);
  }
}
