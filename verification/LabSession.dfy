/**
 How the participants write the tape, as functions of the tape so far: the state they look at is the
 one that the tape leads to. So a session is determined by configuration, draws and schedule.
 */
module LabSession {
  import opened Wrappers
  import opened Numbers
  import opened LabState
  import opened LabCensus
  import opened LabTape
  import opened LabConfig
  import opened LabReplay
  import Schedule

  type Draw = (int, int, int) -> nat

  function Clamp(n: int, lo: int, hi: int): int {
    var a := if n > lo then n else lo;
    if hi < a then hi else a
  }

  /** Division that drops the fraction. */
  function Trunc(a: int, b: int): int
    requires b > 0
  {
    if a >= 0 then a / b else -(-a / b)
  }

  /** The maker's centre price, from twice the mid price and public data only. */
  function MakerCenter(publicValue: int, mid2: int, inventory: int, target: int, aversion: int): (r: int)
    ensures 5_000 <= r <= 15_000
  {
    Clamp(RoundDiv(8 * publicValue + mid2, 10) - Clamp(Trunc((inventory - target) * aversion, 100), -100, 100), 5_000,
          15_000)
  }

  function OrderEntry(sequence: nat, tick: nat, actor: string, side: Side, quantity: int, price: Option<int>): Entry {
    Ordered(sequence, tick, actor, actor + "-" + Decimal(sequence), side, quantity, price)
  }

  function WithOrder(events: seq<Entry>, tick: nat, actor: string, side: Side, quantity: int,
                     price: Option<int>): seq<Entry> {
    events + [OrderEntry(|events|, tick, actor, side, quantity, price)]
  }

  /** Cancels those of the orders that are at least `age` ticks old. */
  function WithCancels(events: seq<Entry>, tick: nat, actor: string, own: seq<Order>, age: int): seq<Entry> {
    if own == [] then events
    else
      var before := WithCancels(events, tick, actor, own[..|own| - 1], age);
      if tick - own[|own| - 1].tick >= age then before + [Cancelled(|before|, tick, actor, own[|own| - 1].id)]
      else before
  }

  function OldCancelled(c: Config, events: seq<Entry>, tick: nat, actor: string, age: int): seq<Entry>
    requires Normal(c)
  {
    var b := Replay(c, events).book;
    WithCancels(events, tick, actor, OrdersOf(b.bids + b.asks, actor), age)
  }

  /** Twice the mid price, or twice the public value when a side is empty. */
  function Mid2(w: World): int {
    if w.book.bids != [] && w.book.asks != [] then w.book.bids[0].price + w.book.asks[0].price else 2 * w.publicValue
  }

  function QuoteWidth(draw: Draw, w: World, tick: nat, i: nat): int {
    var lastPublic := if w.points != [] then w.points[|w.points| - 1].publicValue else INITIAL_PRICE;
    var move := Abs(w.publicValue - lastPublic);
    12 + (if move < 30 then move else 30) + draw(2, tick, i) % 8
  }

  /** The first `n` pairs of quotes around a centre. */
  function WithQuotes(c: Config, events: seq<Entry>, tick: nat, i: nat, center: int, width: int, n: nat): seq<Entry> {
    if n == 0 then events
    else
      var level := n - 1;
      var distance := width + level * 18 + i * 2;
      var size := c.quoteSize + c.quoteSize * level / 3;
      WithOrder(WithOrder(WithQuotes(c, events, tick, i, center, width, level), tick, MarketMaker(i), Buy, size,
                          Some(center - distance)),
                tick, MarketMaker(i), Sell, size, Some(center + distance))
  }

  /** A maker withdraws its quotes and places three new ones on either side. */
  function Replenished(c: Config, draw: Draw, events: seq<Entry>, tick: nat, i: nat): seq<Entry>
    requires Normal(c)
  {
    if tick != 0 && tick % c.replenishEvery != i % c.replenishEvery then events
    else
      var cleared := OldCancelled(c, events, tick, MarketMaker(i), 0);
      var w := Replay(c, cleared);
      if MarketMaker(i) !in w.book.accounts then cleared
      else
        var a := w.book.accounts[MarketMaker(i)];
        var center := MakerCenter(w.publicValue, Mid2(w), a.inventory, a.targetInventory, c.inventoryAversion);
        WithQuotes(c, cleared, tick, i, center, QuoteWidth(draw, w, tick, i), 3)
  }

  function NoiseSide(difference2: int, coin: nat): Side {
    if Abs(difference2) > 24 && coin % 100 < 75 then (if difference2 > 0 then Buy else Sell)
    else if coin % 2 == 0 then Buy else Sell
  }

  /** Its limit, a little away from the mid price, or none. */
  function NoisePrice(draw: Draw, mid2: int, side: Side, tick: nat, i: nat): (price: Option<int>)
    ensures price.Some? ==> 100 <= price.value <= 10_000_000
  {
    var distance := 8 + draw(7, tick, i) % 33;
    if draw(6, tick, i) % 100 < 65 then None
    else Some(Clamp(RoundDiv(mid2, 2) + (if side.Buy? then -distance else distance), 100, 10_000_000))
  }

  /** A noise trader follows the public value or a coin. */
  function NoiseTraded(c: Config, draw: Draw, events: seq<Entry>, tick: nat, i: nat): seq<Entry>
    requires Normal(c)
  {
    var cleared := OldCancelled(c, events, tick, NoiseTrader(i), 12);
    if draw(3, tick, i) % 100 >= 50 then cleared
    else
      var w := Replay(c, cleared);
      var side := NoiseSide(2 * w.publicValue - Mid2(w), draw(4, tick, i));
      WithOrder(cleared, tick, NoiseTrader(i), side, 10 + draw(5, tick, i) % 76,
                NoisePrice(draw, Mid2(w), side, tick, i))
  }

  /** An informed trader takes what is mispriced against the fundamental value. */
  function InformedTraded(c: Config, draw: Draw, events: seq<Entry>, tick: nat, i: nat): seq<Entry>
    requires Normal(c)
  {
    var w := Replay(c, events);
    var edgeBuy := if w.book.asks == [] then 0 else w.fundamental - w.book.asks[0].price;
    var edgeSell := if w.book.bids == [] then 0 else w.book.bids[0].price - w.fundamental;
    if draw(8, tick, i) % 100 >= 45 || (edgeBuy <= 12 && edgeSell <= 12) then events
    else WithOrder(events, tick, InformedTrader(i), if edgeBuy > 12 then Buy else Sell, 20 + draw(9, tick, i) % 61,
                   None)
  }

  function MakersDone(c: Config, draw: Draw, events: seq<Entry>, tick: nat, n: nat): seq<Entry>
    requires Normal(c)
  {
    if n == 0 then events else Replenished(c, draw, MakersDone(c, draw, events, tick, n - 1), tick, n - 1)
  }

  function NoiseDone(c: Config, draw: Draw, events: seq<Entry>, tick: nat, n: nat): seq<Entry>
    requires Normal(c)
  {
    if n == 0 then events else NoiseTraded(c, draw, NoiseDone(c, draw, events, tick, n - 1), tick, n - 1)
  }

  function InformedDone(c: Config, draw: Draw, events: seq<Entry>, tick: nat, n: nat): seq<Entry>
    requires Normal(c)
  {
    if n == 0 then events else InformedTraded(c, draw, InformedDone(c, draw, events, tick, n - 1), tick, n - 1)
  }

  /** Everybody acts once; the parent sends what its schedule says. */
  function TradedTick(c: Config, draw: Draw, events: seq<Entry>, tick: nat, parent: int): seq<Entry>
    requires Normal(c)
  {
    var done := InformedDone(c, draw, NoiseDone(c, draw, MakersDone(c, draw, events, tick, 3), tick, 6), tick,
                             c.informedCount);
    if parent == 0 then done else WithOrder(done, tick, PARENT, c.side, parent, None)
  }

  /** The fundamental value at a tick; `n` counts the ticks up to and with it. */
  function FundamentalAt(c: Config, draw: Draw, n: nat): int {
    if n == 0 then INITIAL_PRICE
    else
      var tick := n - 1;
      var moved := FundamentalAt(c, draw, tick) + draw(1, tick, 0) % 7 - 3;
      Clamp(if tick == c.ticks * 2 / 5 then moved + RoundDiv(moved * c.newsJumpBps, 10_000) else moved, 5_000, 15_000)
  }

  function PublicAt(c: Config, draw: Draw, tick: nat): int {
    if tick < c.informationDelay then INITIAL_PRICE
    else FundamentalAt(c, draw, tick - (if c.informationDelay < 0 then 0 else c.informationDelay) + 1)
  }

  function OpenedTick(events: seq<Entry>, tick: nat, value: int, public: int): seq<Entry> {
    events + [Fundamental(|events|, tick, value), Public(|events| + 1, tick, public)]
  }

  /** One tick of a session: both values, everybody's actions, the sample. */
  function TickDone(c: Config, draw: Draw, events: seq<Entry>, tick: nat, parent: int): seq<Entry>
    requires Normal(c)
  {
    var done := TradedTick(c, draw, OpenedTick(events, tick, FundamentalAt(c, draw, tick + 1), PublicAt(c, draw, tick)),
                           tick, parent);
    done + [Sampled(|done|, tick)]
  }

  /** What the parent sends at a tick, if anything. */
  function QuantityAt(slices: seq<Schedule.Slice>, tick: int): int {
    if slices == [] then 0 else if slices[0].tick == tick then slices[0].quantity else QuantityAt(slices[1..], tick)
  }

  /** The tape of the first `n` ticks. */
  function Session(c: Config, draw: Draw, slices: seq<Schedule.Slice>, n: nat): seq<Entry>
    requires Normal(c)
  {
    if n == 0 then [] else TickDone(c, draw, Session(c, draw, slices, n - 1), n - 1, QuantityAt(slices, n - 1))
  }

  // ---- Before the window opens, all policies are one ----

  lemma {:induction false} NothingPlanned(slices: seq<Schedule.Slice>, start: int, tick: int)
    requires tick < start && forall k :: 0 <= k < |slices| ==> slices[k].tick >= start
    ensures QuantityAt(slices, tick) == 0
  {
    if slices != [] { NothingPlanned(slices[1..], start, tick); }
  }

  lemma {:induction false} SchedulesAgreeBefore(c: Config, draw: Draw, a: seq<Schedule.Slice>, b: seq<Schedule.Slice>,
                                                start: int, n: nat)
    requires Normal(c) && n <= start
    requires forall k :: 0 <= k < |a| ==> a[k].tick >= start
    requires forall k :: 0 <= k < |b| ==> b[k].tick >= start
    ensures Session(c, draw, a, n) == Session(c, draw, b, n)
  {
    hide TickDone;
    if n > 0 {
      SchedulesAgreeBefore(c, draw, a, b, start, n - 1);
      NothingPlanned(a, start, n - 1);
      NothingPlanned(b, start, n - 1);
    }
  }

  function Window(c: Config): Schedule.Window
    requires Normal(c)
  {
    Schedule.ExecutionWindow(c.ticks)
  }

  /** The tape of a policy after `n` ticks. */
  function TapeOf(c: Config, draw: Draw, policy: Schedule.Policy, n: nat): seq<Entry>
    requires Normal(c)
  {
    Session(c, draw, Schedule.Plan(c.quantity, policy, Window(c)), n)
  }

  /** Before the window opens, two policies have written the same tape, and so stand in the same state. */
  lemma PoliciesAgreeBeforeTheWindow(c: Config, draw: Draw, p: Schedule.Policy, q: Schedule.Policy, n: nat)
    requires Normal(c) && n <= Window(c).start
    ensures TapeOf(c, draw, p, n) == TapeOf(c, draw, q, n)
    ensures Replay(c, TapeOf(c, draw, p, n)) == Replay(c, TapeOf(c, draw, q, n))
  {
    hide Session, Schedule.Plan;
    Schedule.NothingBeforeTheWindow(c.quantity, p, Window(c));
    Schedule.NothingBeforeTheWindow(c.quantity, q, Window(c));
    SchedulesAgreeBefore(c, draw, Schedule.Plan(c.quantity, p, Window(c)), Schedule.Plan(c.quantity, q, Window(c)),
                         Window(c).start, n);
  }

  // ---- A tick only appends, and only entries of its own ----

  ghost predicate Appends(before: seq<Entry>, after: seq<Entry>, tick: nat) {
    && |before| <= |after| && (forall j :: 0 <= j < |before| ==> after[j] == before[j])
    && forall j :: |before| <= j < |after| ==> after[j].tick == tick
  }

  lemma {:induction false} CancelsAppend(events: seq<Entry>, tick: nat, actor: string, own: seq<Order>, age: int)
    ensures Appends(events, WithCancels(events, tick, actor, own, age), tick)
  {
    if own != [] { CancelsAppend(events, tick, actor, own[..|own| - 1], age); }
  }

  lemma {:induction false} QuotesAppend(c: Config, events: seq<Entry>, tick: nat, i: nat, center: int, width: int,
                                        n: nat)
    ensures Appends(events, WithQuotes(c, events, tick, i, center, width, n), tick)
  {
    if n > 0 { QuotesAppend(c, events, tick, i, center, width, n - 1); }
  }

  lemma ReplenishedAppends(c: Config, draw: Draw, events: seq<Entry>, tick: nat, i: nat)
    requires Normal(c)
    ensures Appends(events, Replenished(c, draw, events, tick, i), tick)
  {
    hide Replay, WithCancels, WithQuotes, MakerCenter, QuoteWidth, Mid2, MarketMaker;
    var b := Replay(c, events).book;
    CancelsAppend(events, tick, MarketMaker(i), OrdersOf(b.bids + b.asks, MarketMaker(i)), 0);
    var cleared := OldCancelled(c, events, tick, MarketMaker(i), 0);
    var w := Replay(c, cleared);
    if MarketMaker(i) in w.book.accounts {
      var a := w.book.accounts[MarketMaker(i)];
      var center := MakerCenter(w.publicValue, Mid2(w), a.inventory, a.targetInventory, c.inventoryAversion);
      QuotesAppend(c, cleared, tick, i, center, QuoteWidth(draw, w, tick, i), 3);
    }
  }

  lemma NoiseAppends(c: Config, draw: Draw, events: seq<Entry>, tick: nat, i: nat)
    requires Normal(c)
    ensures Appends(events, NoiseTraded(c, draw, events, tick, i), tick)
  {
    hide Replay, WithCancels, NoiseSide, NoisePrice, Mid2, NoiseTrader;
    var b := Replay(c, events).book;
    CancelsAppend(events, tick, NoiseTrader(i), OrdersOf(b.bids + b.asks, NoiseTrader(i)), 12);
  }

  lemma {:induction false} AllAppend(c: Config, draw: Draw, events: seq<Entry>, tick: nat, n: nat)
    requires Normal(c)
    ensures Appends(events, MakersDone(c, draw, events, tick, n), tick)
    ensures Appends(events, NoiseDone(c, draw, events, tick, n), tick)
    ensures Appends(events, InformedDone(c, draw, events, tick, n), tick)
  {
    hide Replay, Replenished, NoiseTraded;
    if n > 0 {
      AllAppend(c, draw, events, tick, n - 1);
      ReplenishedAppends(c, draw, MakersDone(c, draw, events, tick, n - 1), tick, n - 1);
      NoiseAppends(c, draw, NoiseDone(c, draw, events, tick, n - 1), tick, n - 1);
    }
  }

  lemma TickAppends(c: Config, draw: Draw, events: seq<Entry>, tick: nat, parent: int)
    requires Normal(c)
    ensures Appends(events, TickDone(c, draw, events, tick, parent), tick)
  {
    hide Replay, MakersDone, NoiseDone, InformedDone, FundamentalAt, PublicAt;
    var begun := OpenedTick(events, tick, FundamentalAt(c, draw, tick + 1), PublicAt(c, draw, tick));
    var makers := MakersDone(c, draw, begun, tick, 3);
    var noise := NoiseDone(c, draw, makers, tick, 6);
    AllAppend(c, draw, begun, tick, 3);
    AllAppend(c, draw, makers, tick, 6);
    AllAppend(c, draw, noise, tick, c.informedCount);
  }

  /** A longer session begins with the shorter one, and adds later ticks only. */
  lemma {:induction false} SessionsExtend(c: Config, draw: Draw, slices: seq<Schedule.Slice>, n: nat, m: nat)
    requires Normal(c) && n <= m
    ensures var a, b := Session(c, draw, slices, n), Session(c, draw, slices, m);
      && |a| <= |b| && (forall j :: 0 <= j < |a| ==> b[j] == a[j] && b[j].tick < n)
      && (forall j :: |a| <= j < |b| ==> n <= b[j].tick < m)
    decreases m
  {
    hide TickDone;
    if n < m {
      SessionsExtend(c, draw, slices, n, m - 1);
      TickAppends(c, draw, Session(c, draw, slices, m - 1), m - 1, QuantityAt(slices, m - 1));
    } else if n > 0 {
      SessionsExtend(c, draw, slices, n - 1, n - 1);
      TickAppends(c, draw, Session(c, draw, slices, n - 1), n - 1, QuantityAt(slices, n - 1));
    }
  }

  /**
   Event for event: whatever one policy's tape holds before the window opens, every other policy's
   tape holds at the same place.
   */
  lemma TapesShareTheirBeginning(c: Config, draw: Draw, p: Schedule.Policy, q: Schedule.Policy, j: nat)
    requires Normal(c) && j < |TapeOf(c, draw, p, c.ticks)| && TapeOf(c, draw, p, c.ticks)[j].tick < Window(c).start
    ensures j < |TapeOf(c, draw, q, c.ticks)| && TapeOf(c, draw, q, c.ticks)[j] == TapeOf(c, draw, p, c.ticks)[j]
  {
    hide Session, Schedule.Plan;
    Schedule.WindowHasRoom(c.ticks);
    var start := Window(c).start;
    PoliciesAgreeBeforeTheWindow(c, draw, p, q, start);
    SessionsExtend(c, draw, Schedule.Plan(c.quantity, p, Window(c)), start, c.ticks);
    SessionsExtend(c, draw, Schedule.Plan(c.quantity, q, Window(c)), start, c.ticks);
  }
}
