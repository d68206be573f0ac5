/**
 Order flow at the best quotes: a ring of the latest events with running sums. `Track` says, for a
 whole stream of samples, which events there were; the ring must agree with the end of that list.
 */
module OrderFlow {
  import opened Wrappers
  import opened Numbers

  const MAX_WINDOW := 4096

  datatype Level = Level(price: real, size: int)

  datatype Sample = Sample(bids: seq<Level>, asks: seq<Level>)

  predicate ValidLevel(l: Level) { l.price > 0.0 && l.size > 0 }

  /** The first valid level in the caller's order. */
  function BestQuote(levels: seq<Level>): Option<Level> {
    if levels == [] then None else if ValidLevel(levels[0]) then Some(levels[0]) else BestQuote(levels[1..])
  }

  datatype Quotes = Quotes(bid: Level, ask: Level)

  /** Both best quotes, or nothing. */
  function QuotesOf(s: Sample): Option<Quotes> {
    var bid, ask := BestQuote(s.bids), BestQuote(s.asks);
    if bid.Some? && ask.Some? then Some(Quotes(bid.value, ask.value)) else None
  }

  function BidContribution(prev: Level, next: Level): int {
    if next.price > prev.price then next.size else if next.price < prev.price then -prev.size else next.size - prev.size
  }

  function AskContribution(prev: Level, next: Level): int {
    if next.price < prev.price then -next.size else if next.price > prev.price then prev.size else prev.size - next.size
  }

  datatype Event = Event(flow: int, depth: real)

  function EventOf(prev: Quotes, next: Quotes): Event {
    Event(BidContribution(prev.bid, next.bid) + AskContribution(prev.ask, next.ask),
          (prev.bid.size + prev.ask.size + next.bid.size + next.ask.size) as real / 4.0)
  }

  /** The baseline after a stream of samples, and the events it caused. */
  datatype Tracked = Tracked(baseline: Option<Quotes>, events: seq<Event>)

  function Track(samples: seq<Sample>): Tracked {
    if samples == [] then Tracked(None, [])
    else
      var before, next := Track(samples[..|samples| - 1]), QuotesOf(samples[|samples| - 1]);
      if next.None? || before.baseline.None? || before.baseline == next then Tracked(next, before.events)
      else Tracked(next, before.events + [EventOf(before.baseline.value, next.value)])
  }

  function Indicator(b: bool): int { if b then 1 else 0 }

  lemma TrackStep(samples: seq<Sample>, s: Sample)
    ensures var before, next := Track(samples), QuotesOf(s);
      Track(samples + [s])
        == Tracked(next, if next.None? || before.baseline.None? || before.baseline == next then before.events
                                            else before.events + [EventOf(before.baseline.value, next.value)])
  {
    assert (samples + [s])[..|samples|] == samples;
  }

  /** The published definition of an event, indicator by indicator. */
  lemma EventIsTheDefinition(prev: Quotes, next: Quotes)
    ensures EventOf(prev, next).flow ==
      Indicator(next.bid.price >= prev.bid.price) * next.bid.size
        - Indicator(next.bid.price <= prev.bid.price) * prev.bid.size
      - Indicator(next.ask.price <= prev.ask.price) * next.ask.size
        + Indicator(next.ask.price >= prev.ask.price) * prev.ask.size
  {
  }

  function FlowSum(events: seq<Event>): int {
    if events == [] then 0 else FlowSum(events[..|events| - 1]) + events[|events| - 1].flow
  }

  function DepthSum(events: seq<Event>): real {
    if events == [] then 0.0 else DepthSum(events[..|events| - 1]) + events[|events| - 1].depth
  }

  lemma {:induction false} SumsConcat(a: seq<Event>, b: seq<Event>)
    ensures FlowSum(a + b) == FlowSum(a) + FlowSum(b) && DepthSum(a + b) == DepthSum(a) + DepthSum(b)
  {
    if b == [] {
      assert a + b == a;
    } else {
      assert (a + b)[..|a + b| - 1] == a + b[..|b| - 1];
      SumsConcat(a, b[..|b| - 1]);
    }
  }

  /** The events a window of this size retains. */
  function Retained(events: seq<Event>, window: nat): seq<Event> {
    if |events| <= window then events else events[|events| - window..]
  }

  ghost predicate Bounded(e: Event) {
    e.depth > 0.0 && -4.0 * e.depth <= e.flow as real <= 4.0 * e.depth
  }

  lemma BestQuoteIsValid(levels: seq<Level>)
    ensures BestQuote(levels).Some? ==> ValidLevel(BestQuote(levels).value) && BestQuote(levels).value in levels
  {
  }

  lemma {:induction false} EventsAreBounded(samples: seq<Sample>)
    ensures var t := Track(samples);
      && (t.baseline.Some? ==> ValidLevel(t.baseline.value.bid) && ValidLevel(t.baseline.value.ask))
      && forall i :: 0 <= i < |t.events| ==> Bounded(t.events[i])
  {
    if samples != [] {
      EventsAreBounded(samples[..|samples| - 1]);
      var s := samples[|samples| - 1];
      BestQuoteIsValid(s.bids);
      BestQuoteIsValid(s.asks);
      assert QuotesOf(s).Some? ==> ValidLevel(QuotesOf(s).value.bid) && ValidLevel(QuotesOf(s).value.ask);
    }
  }

  lemma {:induction false} SumsAreBounded(events: seq<Event>)
    requires forall i :: 0 <= i < |events| ==> Bounded(events[i])
    ensures -4.0 * DepthSum(events) <= FlowSum(events) as real <= 4.0 * DepthSum(events)
    ensures DepthSum(events) >= 0.0 && (events != [] ==> DepthSum(events) > 0.0)
  {
    if events != [] {
      SumsAreBounded(events[..|events| - 1]);
      assert Bounded(events[|events| - 1]);
    }
  }

  /** A gap in the quotes makes no event: neither when it opens nor when it closes. */
  lemma GapsMakeNoEvents(samples: seq<Sample>, gap: Sample, next: Sample)
    requires QuotesOf(gap).None?
    ensures Track(samples + [gap]).events == Track(samples).events
    ensures Track(samples + [gap, next]) == Tracked(QuotesOf(next), Track(samples).events)
  {
    assert (samples + [gap])[..|samples|] == samples;
    assert (samples + [gap, next])[..|samples| + 1] == samples + [gap];
  }

  /** While both best prices stand, flow telescopes: it is the change in bid size less the change in ask size. */
  lemma {:induction false} FlowTelescopes(samples: seq<Sample>, bid: real, ask: real)
    requires samples != [] && forall i :: 0 <= i < |samples| ==>
      && QuotesOf(samples[i]).Some?
      && QuotesOf(samples[i]).value.bid.price == bid && QuotesOf(samples[i]).value.ask.price == ask
    ensures var first, last := QuotesOf(samples[0]).value, QuotesOf(samples[|samples| - 1]).value;
      && Track(samples).baseline == Some(last)
      && FlowSum(Track(samples).events) == (last.bid.size - first.bid.size) - (last.ask.size - first.ask.size)
  {
    var n := |samples| - 1;
    if n == 0 {
      assert samples[..0] == [];
    } else {
      FlowTelescopes(samples[..n], bid, ask);
      var before, next := Track(samples[..n]), QuotesOf(samples[n]).value;
      if before.baseline != Some(next) {
        var e := EventOf(before.baseline.value, next);
        assert (before.events + [e])[..|before.events|] == before.events;
      }
    }
  }

  datatype Snapshot = Snapshot(available: bool, eventCount: nat, netOrderFlow: int, normalizedOfi: real,
                               queueImbalance: real, averageDepth: real)

  lemma RingSlots(n: nat, j: nat, window: nat)
    requires window >= 1 && n - window < j < n
    ensures j % window != n % window
  {
    var a, b := j / window, n / window;
    assert j == a * window + j % window && n == b * window + n % window;
    assert j % window - n % window == (b - a) * window - (n - j);
    MultipleIsFar(b - a, window);
  }

  lemma SmallRemainder(q: nat, r: nat, window: nat)
    requires r < window
    ensures (q * window + r) % window == r
  {
    var m := q * window + r;
    var p := m / window;
    assert m == p * window + m % window;
    assert (p - q) * window == r - m % window;
    MultipleIsFar(p - q, window);
  }

  lemma NextSlot(n: nat, window: nat)
    requires window >= 1
    ensures (n + 1) % window == (n % window + 1) % window
  {
    var q, r := n / window, n % window;
    assert n == q * window + r;
    if r + 1 < window {
      SmallRemainder(q, r + 1, window);
      SmallRemainder(0, r + 1, window);
    } else {
      assert n + 1 == (q + 1) * window + 0;
      SmallRemainder(q + 1, 0, window);
      SmallRemainder(1, 0, window);
    }
  }

  /** What a push does to the window's sums: the new event comes in, and the oldest goes when the window is full. */
  lemma RetainedAfter(events: seq<Event>, e: Event, window: nat)
    requires window >= 1
    ensures var before, after := Retained(events, window), Retained(events + [e], window);
      && |before| == (if |events| < window then |events| else window)
      && |after| == (if |events| < window then |events| + 1 else window)
      && FlowSum(after) == FlowSum(before) + e.flow - (if |events| >= window then events[|events| - window].flow else 0)
      && DepthSum(after) == DepthSum(before) + e.depth
         - (if |events| >= window then events[|events| - window].depth else 0.0)
  {
    var before, after := Retained(events, window), Retained(events + [e], window);
    OneSum(e);
    if |events| < window {
      SumsConcat(events, [e]);
    } else {
      var oldest := events[|events| - window];
      OneSum(oldest);
      assert before == [oldest] + before[1..] && after == before[1..] + [e];
      SumsConcat([oldest], before[1..]);
      SumsConcat(before[1..], [e]);
    }
  }

  lemma OneSum(e: Event)
    ensures FlowSum([e]) == e.flow && DepthSum([e]) == e.depth
  {
    assert [e][..0] == [];
  }

  /** One symbol's observer. */
  class Observer {
    const window: nat
    var available: bool
    var bid: Option<Level>
    var ask: Option<Level>
    var flows: array<int>
    var depths: array<real>
    var head: nat
    var count: nat
    var flowSum: int
    var depthSum: real
    /** Every sample seen so far. */
    ghost var samples: seq<Sample>

    /** The ring holds the retained events, each at its number modulo the window. */
    ghost predicate Holds(events: seq<Event>)
      reads this, flows, depths
    {
      && window >= 1 && flows.Length == window && depths.Length == window
      && head == |events| % window && count == |Retained(events, window)|
      && (forall j :: 0 <= j < |events| && |events| - window <= j ==>
          flows[j % window] == events[j].flow && depths[j % window] == events[j].depth)
      && flowSum == FlowSum(Retained(events, window)) && depthSum == DepthSum(Retained(events, window))
    }

    ghost predicate Valid()
      reads this, flows, depths
    {
      var t := Track(samples);
      && Holds(t.events)
      && t.baseline == (if bid.Some? && ask.Some? then Some(Quotes(bid.value, ask.value)) else None)
      && (bid.Some? <==> ask.Some?) && (available <==> bid.Some?)
    }

    constructor (window: nat)
      requires 1 <= window <= MAX_WINDOW
      ensures Valid() && samples == [] && this.window == window
      ensures fresh(flows) && fresh(depths)
    {
      this.window := window;
      available, bid, ask := false, None, None;
      flows, depths := new int[window](i => 0), new real[window](i => 0.0);
      head, count, flowSum, depthSum, samples := 0, 0, 0, 0.0, [];
    }

    method Push(flow: int, depth: real, ghost events: seq<Event>)
      requires Holds(events)
      modifies this`head, this`count, this`flowSum, this`depthSum, flows, depths
      ensures flows == old(flows) && depths == old(depths) && Holds(events + [Event(flow, depth)])
    {
      hide Retained, FlowSum, DepthSum;
      ghost var n, e := |events|, Event(flow, depth);
      RetainedAfter(events, e, window);
      if n >= window { SameSlot(n, window); }
      if count == window {
        flowSum := flowSum - flows[head];
        depthSum := depthSum - depths[head];
      } else {
        count := count + 1;
      }
      flows[head] := flow;
      depths[head] := depth;
      flowSum := flowSum + flow;
      depthSum := depthSum + depth;
      head := (head + 1) % window;
      NextSlot(n, window);
      forall j | 0 <= j < n + 1 && n + 1 - window <= j
        ensures flows[j % window] == (events + [e])[j].flow && depths[j % window] == (events + [e])[j].depth
      {
        if j < n { RingSlots(n, j, window); }
      }
    }

    /** Feeds one sample. */
    method Observe(sample: Sample) returns (s: Snapshot)
      requires Valid()
      modifies this, flows, depths
      ensures Valid() && samples == old(samples) + [sample] && flows == old(flows) && depths == old(depths)
      ensures s == View()
    {
      hide Track, Retained, FlowSum, DepthSum, BestQuote;
      ghost var before := Track(samples);
      TrackStep(samples, sample);
      samples := samples + [sample];
      var nextBid, nextAsk := BestQuote(sample.bids), BestQuote(sample.asks);
      if nextBid.None? || nextAsk.None? {
        available, bid, ask := false, None, None;
        return View();
      }
      var prevBid, prevAsk := bid, ask;
      available, bid, ask := true, nextBid, nextAsk;
      if prevBid.None? || prevAsk.None? { return View(); }
      if prevBid == nextBid && prevAsk == nextAsk { return View(); }
      var flow := BidContribution(prevBid.value, nextBid.value) + AskContribution(prevAsk.value, nextAsk.value);
      var depth := (prevBid.value.size + prevAsk.value.size + nextBid.value.size + nextAsk.value.size) as real / 4.0;
      Push(flow, depth, before.events);
      return View();
    }

    function View(): Snapshot
      reads this
    {
      var total := if bid.Some? && ask.Some? then bid.value.size + ask.value.size else 0;
      Snapshot(available, count, if count > 0 then flowSum else 0,
               if count > 0 && depthSum > 0.0 then flowSum as real / depthSum else 0.0,
               if bid.Some? && ask.Some? && total > 0 then (bid.value.size - ask.value.size) as real / total as real
               else 0.0,
               if count > 0 then depthSum / count as real else 0.0)
    }

    /** What a snapshot says is what the last events of the whole stream say. */
    lemma SnapshotIsTheListsEnd()
      requires Valid()
      ensures var kept := Retained(Track(samples).events, window);
        && View().eventCount == |kept| && View().netOrderFlow == FlowSum(kept)
        && (kept == [] ==> View().normalizedOfi == 0.0)
        && View().normalizedOfi * DepthSum(kept) == FlowSum(kept) as real
        && -4.0 <= View().normalizedOfi <= 4.0
        && (View().available <==> Track(samples).baseline.Some?)
    {
      hide Track, FlowSum, DepthSum, Retained;
      var kept := Retained(Track(samples).events, window);
      RetainedAreBounded(samples, window, kept);
      RatioIsBounded(kept);
    }
  }

  lemma QuotientIsBounded(a: real, b: real)
    requires b > 0.0 && -4.0 * b <= a <= 4.0 * b
    ensures -4.0 <= a / b <= 4.0
  {
    assert a / b * b == a;
    Factor(4.0 - a / b, b);
    Factor(a / b + 4.0, b);
  }

  lemma Factor(x: real, b: real)
    requires b > 0.0
    ensures x * b >= 0.0 ==> x >= 0.0
  {
    if x < 0.0 { assert -x * b > 0.0; }
  }

  lemma RetainedAreBounded(samples: seq<Sample>, window: nat, kept: seq<Event>)
    requires kept == Retained(Track(samples).events, window)
    ensures forall i :: 0 <= i < |kept| ==> Bounded(kept[i])
  {
    EventsAreBounded(samples);
  }

  lemma RatioIsBounded(kept: seq<Event>)
    requires forall i :: 0 <= i < |kept| ==> Bounded(kept[i])
    ensures kept == [] ==> FlowSum(kept) == 0 && DepthSum(kept) == 0.0
    ensures kept != [] ==>
      && DepthSum(kept) > 0.0
      && var r := FlowSum(kept) as real / DepthSum(kept);
         -4.0 <= r <= 4.0 && r * DepthSum(kept) == FlowSum(kept) as real
  {
    SumsAreBounded(kept);
    if kept != [] { QuotientIsBounded(FlowSum(kept) as real, DepthSum(kept)); }
  }

  lemma SameSlot(n: nat, window: nat)
    requires 1 <= window <= n
    ensures (n - window) % window == n % window
  {
    var q, r := n / window, n % window;
    assert n - window == (q - 1) * window + r;
    SmallRemainder(q - 1, r, window);
  }
}
