/**
 The finite price/time priority planner: its loops over levels and slices, each proved to keep in step
 with the share queue, and the plan they end in.
 */
module FinitePlanner {
  import opened Wrappers
  import opened Numbers
  import opened Liquidity
  import opened ShareQueue
  import opened PlanWalk
  import opened Opening
  import opened Residue
  import opened Resumption
  import opened PlanContract
  import Sorting

  ghost predicate PositivePrices<T>(q: seq<Lot<T>>) {
    forall i :: 0 <= i < |q| ==> q[i].price > 0
  }

  lemma {:induction false} RequeuePositive<T>(q: seq<Lot<T>>, l: Lot<T>)
    requires PositivePrices(q) && l.price > 0
    ensures PositivePrices(Requeue(q, l))
  {
    if q != [] && q[0].price == l.price {
      RequeuePositive(q[1..], l);
    }
  }

  lemma {:induction false} TapeCostGrows<T>(q: seq<Lot<T>>, n: nat, m: nat)
    requires PositivePrices(q)
    ensures 0 <= Cost(Tape(q, n)) <= Cost(Tape(q, n + m)) && PositivePrices(Rest(q, n))
    decreases n + m
  {
    if n + m > 0 && q != [] {
      var s := Share(q[0].id, q[0].price);
      if q[0].qty <= 1 && q[0].refills != [] {
        RequeuePositive(q[1..], q[0].(qty := q[0].refills[0], refills := q[0].refills[1..]));
      }
      var next := AfterTake(q, 1);
      assert PositivePrices(next);
      assert Cost([s]) == s.price by { assert [s][..0] == []; }
      if n > 0 {
        TapeCostGrows(next, n - 1, m);
        CostAdds([s], Tape(next, n - 1));
        CostAdds([s], Tape(next, n + m - 1));
      } else {
        TapeCostGrows(next, 0, m - 1);
        CostAdds([s], Tape(next, m - 1));
      }
    }
  }

  /** What a slice of `take` shares does to depth and cost. */
  lemma SliceEffects(o: Start, w: Walk, take: nat, band: Band)
    requires Good(o, w) && w.pending != [] && 1 <= take <= w.pending[0].quantity && band.Allows(w.pending[0].price)
    ensures Depth(Rest(o.queue, w.filled + take), band) == Depth(Rest(o.queue, w.filled), band) - take
    ensures Cost(Tape(o.queue, w.filled + take)) == Cost(Tape(o.queue, w.filled)) + take * w.pending[0].price
  {
    hide Tape, Rest, Depth, Cost, Copies, QuotesKept, RowsKept, Clocked, OthersSpent, Stamped, DistinctIds, AllLive,
         TradeTape, Sorting.Strict;
    var q := LotsOf(w.states, w.pending);
    LotsAreLive(w);
    TakeUsesDepth(q, take, band);
    SliceIsShares(q, take);
    ServingComposes(o.queue, w.filled, take);
    CostOfCopies(Tape(o.queue, w.filled), Share(q[0].id, q[0].price), take);
  }

  /** The running totals of a walk that has stayed within the accepted prices. */
  ghost predicate Books(req: Request, o: Start, w: Walk, remaining: int, cents: int) {
    && 0 <= remaining && w.filled + remaining == req.quantity
    && cents == Cost(Tape(o.queue, w.filled)) && 0 <= cents <= MAX_SAFE
    && w.filled + Depth(Rest(o.queue, w.filled), BandOf(req)) == Depth(o.queue, BandOf(req))
    && NamesParties(req, w.slices)
  }

  /** The head item is charged `take` shares; an iceberg shows its next quantity. */
  method ChargeItem(ghost o: Start, ghost w: Walk, ghost mid: seq<Item>, ghost far: seq<Item>,
                    item: Item, take: nat, levelMaxTime: real, states: seq<State>, ghost slice: Slice, counter: real)
    returns (states': seq<State>, counter': real, back: Option<Item>, ghost v: Walk)
    requires Good(o, w) && w == Walk(states, [item] + mid + far, w.slices, w.filled, counter)
    requires 1 <= take <= item.quantity && Reports(slice, item, take)
    requires forall i :: 0 <= i < |mid| ==> mid[i].price == item.price && mid[i].time <= levelMaxTime
    requires far == [] || far[0].price != item.price
    requires 0.0 <= levelMaxTime <= o.latest && counter >= 0.0
    ensures Good(o, v) && counter' >= 0.0
    ensures v == Walk(states', v.pending, w.slices + [slice], w.filled + take, counter')
    ensures take == item.quantity ==> v.pending == mid + (if back.Some? then [back.value] else []) + far
    ensures back.Some? ==> !back.value.external && back.value.price == item.price && back.value.time == levelMaxTime
  {
    hide Good, Lined;
    states', counter', back := states, counter, None;
    assert w.pending[0] == item && w.pending[1..] == mid + far;
    HeadIsRow(o, w);
    if item.external {
      v := AfterQuote(o, w, take, slice);
    } else {
      var state := states[item.slot];
      state := state.(qty := state.qty - take);
      if state.qty > 0 || state.hidden <= 0 {
        states' := states[item.slot := state];
        v := AfterRow(o, w, take, slice, state);
      } else {
        // The part that was on show is gone; the next part queues up behind the level.
        var shown := if state.display <= state.hidden then state.display else state.hidden;
        counter' := counter + 1.0;
        state := state.(qty := shown, hidden := state.hidden - shown, revealed := true, time := levelMaxTime,
                        sequence := counter');
        states' := states[item.slot := state];
        back := Some(Item(false, state.index, state.price, state.time, state.sequence, shown, item.slot));
        v := Walk(states', mid + [back.value] + far, w.slices + [slice], w.filled + take, counter');
        StepReveal(o, w, slice, state, mid, far, back.value, v);
      }
    }
  }

  /** One slice: as much of the head item as is still wanted, unless the notional does not fit. */
  method PrintSlice(req: Request, ghost o: Start, ghost w: Walk, item: Item, states: seq<State>, slices: seq<Slice>,
                    remaining: int, cents: int)
    returns (ok: bool, slice: Slice, take: int, cents': int)
    requires Good(o, w) && w.pending != [] && w.pending[0] == item && w.states == states && w.slices == slices
    requires Books(req, o, w, remaining, cents) && remaining > 0 && BandOf(req).Allows(item.price)
    requires ReadsRows(o.states, req.resting, req.exclude, |req.resting|) && o.external == req.external
    ensures 1 <= take <= item.quantity && take <= remaining && (take < item.quantity ==> take == remaining)
    ensures take <= Depth(Rest(o.queue, w.filled), BandOf(req))
    ensures !ok ==> Cost(Tape(o.queue, w.filled + take)) > MAX_SAFE
    ensures Reports(slice, item, take)
    ensures ok ==> cents' == Cost(Tape(o.queue, w.filled + take)) && 0 <= cents' <= MAX_SAFE
    ensures Depth(Rest(o.queue, w.filled + take), BandOf(req)) == Depth(Rest(o.queue, w.filled), BandOf(req)) - take
    ensures NamesParty(req.resting, req.external, slice)
  {
    hide Good, Books, ReadsRows, Tape, Rest, Depth, Cost, CopyOrder, NamesParty, ReadRow, LotsOf, Band.Allows;
    assert remaining <= req.quantity && cents == Cost(Tape(o.queue, w.filled)) && cents >= 0 by {
      BooksTell(req, o, w, remaining, cents);
    }
    HeadIsRow(o, w);
    take := if remaining <= item.quantity then remaining else item.quantity;
    SliceEffects(o, w, take, BandOf(req));
    var notional := take * item.price;
    ok := !(notional > MAX_SAFE || cents + notional > MAX_SAFE);
    cents' := cents + notional;
    slice := Slice(item.external, item.index, item.price, take,
                   if item.external then None
                   else Some(CopyOrder(states[item.slot], states[item.slot].qty, states[item.slot].hidden)));
    SliceNamesParty(req, o, w, slice);
    ReadPrices(o, w, req);
    assert notional >= 0;
  }

  lemma BooksTell(req: Request, o: Start, w: Walk, remaining: int, cents: int)
    requires Books(req, o, w, remaining, cents)
    ensures remaining <= req.quantity && cents == Cost(Tape(o.queue, w.filled)) && cents >= 0
    ensures Depth(Rest(o.queue, w.filled), BandOf(req)) <= Depth(o.queue, BandOf(req))
  {
  }

  lemma BooksAfter(req: Request, o: Start, w: Walk, remaining: int, cents: int, take: nat, slice: Slice, v: Walk,
                   after: int)
    requires Books(req, o, w, remaining, cents) && take <= remaining
    requires after == Cost(Tape(o.queue, w.filled + take)) && 0 <= after <= MAX_SAFE
    requires Depth(Rest(o.queue, w.filled + take), BandOf(req)) == Depth(Rest(o.queue, w.filled), BandOf(req)) - take
    requires NamesParty(req.resting, req.external, slice) && v.filled == w.filled + take
    requires v.slices == w.slices + [slice]
    ensures Books(req, o, v, remaining - take, after)
  {
  }

  /** Queued prices were checked when the rows were read. */
  lemma ReadPrices(o: Start, w: Walk, req: Request)
    requires Good(o, w) && ReadsRows(o.states, req.resting, req.exclude, |req.resting|)
    ensures forall i :: 0 <= i < |w.pending| ==> w.pending[i].price > 0
  {
    forall i | 0 <= i < |w.pending|
      ensures w.pending[i].price > 0
    {
      var p := w.pending[i];
      assert Matches(w.states, p) && QuoteKept(o.external, p);
      if !p.external {
        assert SameRow(w.states[p.slot], o.states[p.slot]);
        assert ReadRow(req.resting[o.states[p.slot].index], o.states[p.slot].index, req.exclude)
          == Keep(o.states[p.slot]);
      }
    }
  }

  lemma SliceNamesParty(req: Request, o: Start, w: Walk, s: Slice)
    requires Good(o, w) && w.pending != [] && o.external == req.external
    requires ReadsRows(o.states, req.resting, req.exclude, |req.resting|)
    requires s.external == w.pending[0].external && s.index == w.pending[0].index && s.quantity > 0
    requires Matches(w.states, w.pending[0])
    requires s.order == if s.external then None else
               var t := w.states[w.pending[0].slot]; Some(CopyOrder(t, t.qty, t.hidden))
    ensures NamesParty(req.resting, req.external, s)
  {
    var p := w.pending[0];
    assert QuoteKept(o.external, p);
    if !p.external {
      assert SameRow(w.states[p.slot], o.states[p.slot]);
      assert ReadRow(req.resting[o.states[p.slot].index], o.states[p.slot].index, req.exclude)
        == Keep(o.states[p.slot]);
    }
  }

  lemma AfterQuote(o: Start, w: Walk, take: nat, s: Slice) returns (v: Walk)
    requires Good(o, w) && w.pending != [] && w.pending[0].external && 1 <= take <= w.pending[0].quantity
    requires Reports(s, w.pending[0], take)
    ensures Good(o, v)
    ensures v == Walk(w.states, v.pending, w.slices + [s], w.filled + take, w.counter)
    ensures take == w.pending[0].quantity ==> v.pending == w.pending[1..]
  {
    var p := w.pending[0];
    var t: State := State(0, Row(Label(None, Buy, false, 0, None, None), None, 0, 0, 0.0, None, None, None), 0, 0.0,
                          0.0, 0, 0, false, 0, false, false);
    if take < p.quantity {
      v := Walk(w.states, [p.(quantity := p.quantity - take)] + w.pending[1..], w.slices + [s], w.filled + take,
                w.counter);
      StepPartial(o, w, take, s, t, v);
    } else {
      v := Walk(w.states, w.pending[1..], w.slices + [s], w.filled + take, w.counter);
      StepSpent(o, w, s, t, v);
    }
  }

  lemma AfterRow(o: Start, w: Walk, take: nat, s: Slice, t: State) returns (v: Walk)
    requires Good(o, w) && w.pending != [] && !w.pending[0].external && 1 <= take <= w.pending[0].quantity
    requires Reports(s, w.pending[0], take)
    requires Matches(w.states, w.pending[0]) && t == w.states[w.pending[0].slot].(qty := w.pending[0].quantity - take)
    requires t.qty > 0 || t.hidden == 0
    ensures Good(o, v)
    ensures v == Walk(w.states[w.pending[0].slot := t], v.pending, w.slices + [s], w.filled + take, w.counter)
    ensures take == w.pending[0].quantity ==> v.pending == w.pending[1..]
  {
    var p := w.pending[0];
    if take < p.quantity {
      v := Walk(w.states[p.slot := t], [p.(quantity := p.quantity - take)] + w.pending[1..], w.slices + [s],
                w.filled + take, w.counter);
      StepPartial(o, w, take, s, t, v);
    } else {
      v := Walk(w.states[p.slot := t], w.pending[1..], w.slices + [s], w.filled + take, w.counter);
      StepSpent(o, w, s, t, v);
    }
  }

  /** Eligible depth that is still queued: a row that may trade, or a quote that has size left. */
  method HasFillableDepth(states: seq<State>, items: seq<Item>, band: Band) returns (b: bool)
    ensures b <==>
      || (exists k :: 0 <= k < |states| && states[k].tradeable && states[k].qty > 0 && band.Allows(states[k].price))
      || (exists k :: 0 <= k < |items| && items[k].external && items[k].quantity > 0 && band.Allows(items[k].price))
  {
    for k := 0 to |states|
      invariant forall i :: 0 <= i < k ==> !(states[i].tradeable && states[i].qty > 0 && band.Allows(states[i].price))
    {
      if states[k].tradeable && states[k].qty > 0 && band.Allows(states[k].price) { return true; }
    }
    for k := 0 to |items|
      invariant forall i :: 0 <= i < k ==> !(items[i].external && items[i].quantity > 0 && band.Allows(items[i].price))
    {
      if items[k].external && items[k].quantity > 0 && band.Allows(items[k].price) { return true; }
    }
    return false;
  }

  /** The work items of the book, before sorting, and the highest sequence seen. */
  method CollectItems(states: seq<State>, quotes: seq<QuoteState>) returns (items: seq<Item>, floor: real)
    ensures items == RowItems(states, |states|) + QuoteItems(quotes)
    ensures floor >= 0.0 && forall i :: 0 <= i < |items| ==> items[i].sequence <= floor
  {
    items, floor := [], 0.0;
    for k := 0 to |states|
      invariant items == RowItems(states, k)
      invariant floor >= 0.0 && forall i :: 0 <= i < |items| ==> items[i].sequence <= floor
    {
      var state := states[k];
      if state.sequence > floor { floor := state.sequence; }
      if state.index as real > floor { floor := state.index as real; }
      if state.tradeable {
        items := items + [RowItem(state, k)];
      }
    }
    for k := 0 to |quotes|
      invariant items == RowItems(states, |states|) + QuoteItems(quotes[..k])
      invariant floor >= 0.0 && forall i :: 0 <= i < |items| ==> items[i].sequence <= floor
    {
      if quotes[k].sequence > floor { floor := quotes[k].sequence; }
      items := items + [QuoteItem(quotes[k])];
      assert QuoteItems(quotes[..k + 1]) == QuoteItems(quotes[..k]) + [QuoteItem(quotes[k])];
    }
    assert quotes[..|quotes|] == quotes;
  }

  /** Everything queued at the price of `items[start]`, and the latest clock among it. */
  method OpenLevel(items: seq<Item>, start: nat, ghost latest: real)
    returns (level: seq<Item>, cursor: nat, levelMaxTime: real)
    requires start < |items| && latest >= 0.0 && forall i :: start <= i < |items| ==> items[i].time <= latest
    ensures start < cursor <= |items| && level == items[start..cursor]
    ensures forall i :: 0 <= i < |level| ==> level[i].price == items[start].price && level[i].time <= levelMaxTime
    ensures cursor == |items| || items[cursor].price != items[start].price
    ensures 0.0 <= levelMaxTime <= latest
  {
    level, cursor := [], start;
    while cursor < |items| && items[cursor].price == items[start].price
      invariant start <= cursor <= |items| && level == items[start..cursor]
      invariant forall i :: 0 <= i < |level| ==> level[i].price == items[start].price
    {
      level := level + [items[cursor]];
      cursor := cursor + 1;
    }
    levelMaxTime := 0.0;
    for k := 0 to |level|
      invariant 0.0 <= levelMaxTime <= latest && forall i :: 0 <= i < k ==> level[i].time <= levelMaxTime
    {
      if level[k].time > levelMaxTime { levelMaxTime := level[k].time; }
    }
  }

  lemma {:induction false} DepthOfForbidden<T>(q: seq<Lot<T>>, band: Band)
    requires forall i :: 0 <= i < |q| ==> !band.Allows(q[i].price)
    ensures Depth(q, band) == 0
  {
    if q != [] { DepthOfForbidden(q[1..], band); }
  }

  lemma {:induction false} DepthOfAllowed<T>(q: seq<Lot<T>>, band: Band, i: nat)
    requires i < |q| && band.Allows(q[i].price) && q[i].qty > 0
    ensures Depth(q, band) > 0
  {
    if i > 0 { DepthOfAllowed(q[1..], band, i - 1); }
  }

  /** When the best queued price is refused, everything queued is. */
  lemma RefusedHeadMeansNoDepth(req: Request, o: Start, w: Walk)
    requires Good(o, w) && o.up == req.side.Buying()
    requires w.pending == [] || !BandOf(req).Allows(w.pending[0].price)
    ensures Depth(Rest(o.queue, w.filled), BandOf(req)) == 0
  {
    var q := LotsOf(w.states, w.pending);
    forall i | 0 <= i < |q|
      ensures !BandOf(req).Allows(q[i].price)
    {
      assert i > 0 ==> ItemOrder(o.up)(w.pending[0], w.pending[i]) && !ItemOrder(o.up)(w.pending[i], w.pending[0]);
    }
    DepthOfForbidden(q, BandOf(req));
  }

  /** The items whose quantity is not used up are the quotes still queued. */
  ghost predicate Backed(items: seq<Item>, pending: seq<Item>) {
    && (forall i :: 0 <= i < |pending| && pending[i].external ==> pending[i] in items)
    && (forall k :: 0 <= k < |items| && items[k].quantity > 0 ==> items[k] in pending)
  }

  lemma FillableMeansDepth(o: Start, w: Walk, items: seq<Item>, band: Band)
    requires Good(o, w) && Backed(items, w.pending)
    ensures Depth(Rest(o.queue, w.filled), band) > 0 <==>
      || (exists k ::
            && 0 <= k < |w.states| && w.states[k].tradeable && w.states[k].qty > 0
            && band.Allows(w.states[k].price))
      || (exists k :: 0 <= k < |items| && items[k].external && items[k].quantity > 0 && band.Allows(items[k].price))
  {
    hide Tape, Rest, TradeTape;
    var q := LotsOf(w.states, w.pending);
    if i :| 0 <= i < |q| && band.Allows(q[i].price) {
      assert Matches(w.states, w.pending[i]);
      DepthOfAllowed(q, band, i);
      assert w.pending[i].external ==> w.pending[i] in items;
    } else {
      DepthOfForbidden(q, band);
      forall k | 0 <= k < |w.states| && w.states[k].tradeable && w.states[k].qty > 0
        ensures !band.Allows(w.states[k].price)
      {
        assert Queued(w.pending, k);
        var i :| 0 <= i < |w.pending| && !w.pending[i].external && w.pending[i].slot == k;
        assert Matches(w.states, w.pending[i]) && q[i].price == w.states[k].price;
      }
      forall k | 0 <= k < |items| && items[k].quantity > 0
        ensures !band.Allows(items[k].price)
      {
        var i :| 0 <= i < |w.pending| && w.pending[i] == items[k];
        assert q[i].price == items[k].price;
      }
    }
  }

  predicate Zeroed(items: seq<Item>, n: nat) {
    forall k :: 0 <= k < n && k < |items| ==> items[k].quantity == 0
  }

  /** The part of the level that is still to be served mirrors the item list. */
  ghost predicate Mirrors(items: seq<Item>, start: nat, cursor: nat, level: seq<Item>, position: nat) {
    && start <= cursor <= |items| && cursor - start <= |level| && position <= |level|
    && Zeroed(items, if start + position < cursor then start + position else cursor)
    && (forall k :: position <= k < cursor - start ==> items[start + k] == level[k])
    && (forall k :: position <= k < |level| && cursor - start <= k ==> !level[k].external)
  }

  lemma MirrorsMeanBacked(items: seq<Item>, start: nat, cursor: nat, level: seq<Item>, position: nat)
    requires Mirrors(items, start, cursor, level, position)
    ensures Backed(items, level[position..] + items[cursor..])
  {
    var pending := level[position..] + items[cursor..];
    var n := |level| - position;
    forall i | 0 <= i < |pending| && pending[i].external
      ensures pending[i] in items
    {
      if i < n {
        assert pending[i] == level[position + i];
        assert items[start + (position + i)] == level[position + i];
      } else {
        assert pending[i] == items[cursor + (i - n)];
      }
    }
    forall k | 0 <= k < |items| && items[k].quantity > 0
      ensures items[k] in pending
    {
      if k < cursor {
        assert k >= start + position;
        assert pending[k - start - position] == level[k - start];
      } else {
        assert pending[n + (k - cursor)] == items[k];
      }
    }
  }

  lemma MirrorsStart(items: seq<Item>, start: nat, cursor: nat, level: seq<Item>)
    requires start < cursor <= |items| && level == items[start..cursor] && Zeroed(items, start)
    ensures Mirrors(items, start, cursor, level, 0)
  {
  }

  /** The item just served has nothing left; whatever comes back stands at the end of the level only. */
  lemma MirrorsStep(items: seq<Item>, start: nat, cursor: nat, level: seq<Item>, position: nat, spent: Item,
                    back: Option<Item>,
                    items': seq<Item>, level': seq<Item>)
    requires Mirrors(items, start, cursor, level, position) && position < |level| && spent.quantity == 0
    requires items' == if start + position < cursor then items[start + position := spent] else items
    requires level' == if back.Some? then level[position := spent] + [back.value] else level[position := spent]
    requires back.Some? ==> !back.value.external
    ensures Mirrors(items', start, cursor, level', position + 1)
  {
  }

  lemma MirrorsEnd(items: seq<Item>, start: nat, cursor: nat, level: seq<Item>)
    requires Mirrors(items, start, cursor, level, |level|)
    ensures Zeroed(items, cursor)
  {
  }

  /** One price level, whose queue grows while it is walked. */
  method WalkLevel(req: Request, ghost o: Start, ghost w: Walk, items0: seq<Item>, start: nat, cursor: nat,
                   level0: seq<Item>, levelMaxTime: real,
                   states0: seq<State>, slices0: seq<Slice>, remaining0: int, cents0: int, counter0: real)
    returns (ok: bool, capHit: bool, items: seq<Item>, states: seq<State>, slices: seq<Slice>, remaining: int,
             cents: int, counter: real, ghost v: Walk, ghost over: nat)
    requires Good(o, w) && Books(req, o, w, remaining0, cents0) && remaining0 > 0
    requires start < cursor <= |items0| && level0 == items0[start..cursor] && Zeroed(items0, start)
    requires w == Walk(states0, items0[start..], slices0, w.filled, counter0)
    requires forall i :: 0 <= i < |level0| ==> level0[i].price == items0[start].price && level0[i].time <= levelMaxTime
    requires cursor == |items0| || items0[cursor].price != items0[start].price
    requires 0.0 <= levelMaxTime <= o.latest && counter0 >= 0.0 && BandOf(req).Allows(items0[start].price)
    requires ReadsRows(o.states, req.resting, req.exclude, |req.resting|) && o.external == req.external
    requires |slices0| <= CapOf(req)
    ensures !ok ==>
      && 1 <= over <= remaining0 && over <= Depth(Rest(o.queue, w.filled), BandOf(req))
      && Cost(Tape(o.queue, w.filled + over)) > MAX_SAFE
    ensures ok ==>
      && Good(o, v) && Books(req, o, v, remaining, cents)
      && v == Walk(states, v.pending, slices, v.filled, counter) && counter >= 0.0
    ensures ok ==> |slices| <= CapOf(req) && |items| == |items0| && items[cursor..] == items0[cursor..]
    ensures ok && capHit ==> remaining > 0 && |slices| >= CapOf(req) && Backed(items, v.pending)
    ensures ok && !capHit && remaining > 0 ==> v.pending == items[cursor..] && Zeroed(items, cursor)
  {
    hide Good, Lined, Books, Tape, Rest, Depth, Cost, ReadsRows, Band.Allows, Matches, LotsOf, Reports, Backed, CapOf,
         NamesParty, Mirrors, Zeroed;
    ok, capHit, items, states := true, false, items0, states0;
    slices, remaining, cents, counter := slices0, remaining0, cents0, counter0;
    v, over := w, 0;
    var level, position := level0, 0;
    assert level + items[cursor..] == items[start..];
    MirrorsStart(items, start, cursor, level);
    while position < |level|
      invariant Good(o, v) && Books(req, o, v, remaining, cents)
      invariant v == Walk(states, v.pending, slices, v.filled, counter) && counter >= 0.0
      invariant |slices| <= CapOf(req) && |items| == |items0| && items[cursor..] == items0[cursor..]
      invariant remaining >= 0 && position <= |level| && w.filled <= v.filled
      invariant remaining > 0 ==>
        v.pending == level[position..] + items[cursor..] && Mirrors(items, start, cursor, level, position)
      invariant forall i :: position <= i < |level| ==>
        level[i].price == items0[start].price && level[i].time <= levelMaxTime
      invariant v.filled + remaining == w.filled + remaining0
      invariant Depth(Rest(o.queue, v.filled), BandOf(req)) + v.filled
        == Depth(Rest(o.queue, w.filled), BandOf(req)) + w.filled
      decreases remaining, |level| - position
    {
      // A queued item always has shares left, so none is skipped here.
      if remaining <= 0 { return; }
      if |slices| >= CapOf(req) {
        capHit := true;
        MirrorsMeanBacked(items, start, cursor, level, position);
        return;
      }
      var item := level[position];
      ghost var mid, far := level[position + 1..], items[cursor..];
      assert v.pending == [item] + mid + far;
      var fits, slice, take, cents' := PrintSlice(req, o, v, item, states, slices, remaining, cents);
      if !fits {
        ok, over := false, v.filled + take - w.filled;
        return;
      }
      var states', counter', back; ghost var u;
      states', counter', back, u := ChargeItem(o, v, mid, far, item, take, levelMaxTime, states, slice, counter);
      BooksAfter(req, o, v, remaining, cents, take, slice, u, cents');
      ghost var listed, queued := items, level;
      level := level[position := item.(quantity := item.quantity - take)];
      if start + position < cursor {
        items := items[start + position := item.(quantity := item.quantity - take)];
      }
      if back.Some? { level := level + [back.value]; }
      if remaining > take { MirrorsStep(listed, start, cursor, queued, position, item.(quantity := 0), back, items,
                                        level); }
      v, states, counter, cents, slices, remaining := u, states', counter', cents', slices + [slice], remaining - take;
      position := position + 1;
      assert level[position..] == mid + if back.Some? then [back.value] else [];
    }
    if remaining > 0 { MirrorsEnd(items, start, cursor, level); }
  }

  function StartOf(req: Request, book: Opened): Start {
    Start(book.states, req.external, QueueOf(book), req.side.Buying(), Latest(req.resting, req.external))
  }

  /** What the leftovers need to know about the book that was opened. */
  lemma StopsReady(req: Request, book: Opened, w: Walk)
    requires Admit(req) == Success(book) && Good(StartOf(req, book), w)
    ensures Stopped(req.resting, req.external, req.exclude, StartOf(req, book), w)
  {
    hide Lined, Traded, QuotesKept;
    OpenedItems(req.side.Buying(), req.resting, req.external, req.exclude);
    UntouchedRowsShowShares(req, StartOf(req, book), w);
  }

  lemma AdmittedBook(req: Request, book: Opened)
    requires Admit(req) == Success(book)
    ensures OpenBook(req.side.Buying(), req.resting, req.external, req.exclude) == Success(book)
    ensures |req.resting| <= MAX_ROWS && |req.external| <= MAX_ROWS && QuotesOf(req.external, |req.external|).Success?
    ensures |book.states| <= |req.resting|
    ensures Offers(QueueOf(book), req.resting, req.external, req.exclude)
  {
    StatesAreFew(req.resting, req.exclude, |req.resting|);
    OpenedOffers(req.side.Buying(), req.resting, req.external, req.exclude);
  }

  /** A good walk that stopped for one of the right reasons is a plan. */
  lemma FinishesAsPlan(req: Request, book: Opened, w: Walk, plan: Plan)
    requires Admit(req) == Success(book)
    requires Good(StartOf(req, book), w) && Books(req, StartOf(req, book), w, plan.remaining, plan.totalCents)
    requires plan.requested == req.quantity && plan.filled == w.filled && plan.slices == w.slices
    requires plan.restingAfter == RestingAfter(Survivors(w.states, req.side.Buying()))
    requires StopsRight(req, QueueOf(book), plan)
    ensures IsPlan(req, plan, Origins(Survivors(w.states, req.side.Buying())))
  {
    hide Good, Offers, Accounts, LeavesExcluded, OpenBook, LotsOf, NamesParties, Stopped, Admit, Survivors, Replannable,
         StatesOf, QuotesOf;
    hide StopsRight, Tape, Rest, TradeTape, Relabel, Cost, Depth, QueueOf, KeepsStamps, Latest, ShowsLots, Explicit,
         InTurn, Resumable;
    var o := StartOf(req, book);
    StopsReady(req, book, w);
    AdmittedBook(req, book);
    CoversRows(req, book);
    LeftoversAccount(req.resting, req.external, req.exclude, o, w);
    LeftoversKeepExcluded(req.resting, req.external, req.exclude, o, w);
    LeftoversKeepStamps(req, o, w);
    TradesAsServed(o, w);
    LeftoversShowLots(req.resting, req.external, req.exclude, o, w);
    StopsResumable(req, book, w, plan);
    if Explicit(req.resting) {
      ExplicitStandsInTurn(req.resting, req.external, req.exclude, o, w);
      LeftoversStayExplicit(req.resting, req.external, req.exclude, o, w);
    }
    if Replannable(req.resting) {
      LeftoversStayReplannable(req.resting, req.external, req.exclude, o, w);
    }
  }

  /** What the leftovers are when they are opened again. */
  lemma StopsResumable(req: Request, book: Opened, w: Walk, plan: Plan)
    requires Admit(req) == Success(book) && Good(StartOf(req, book), w)
    requires plan.filled == w.filled && plan.slices == w.slices
    requires plan.restingAfter == RestingAfter(Survivors(w.states, req.side.Buying()))
    ensures Resumable(req, QueueOf(book), plan, Origins(Survivors(w.states, req.side.Buying())))
  {
    hide Good, Offers, OpenBook, LotsOf, Stopped, Admit, Survivors, StatesOf, QuotesOf, Tape, Rest, TradeTape, Relabel,
         QueueOf, Latest, RecutAll, InTurn, Owners;
    var o := StartOf(req, book);
    var s := Survivors(w.states, o.up);
    StopsReady(req, book, w);
    AdmittedBook(req, book);
    TradesAsServed(o, w);
    LeftoversOpen(req.resting, req.external, req.exclude, o, w);
    var again := Relabel(Name(Origins(s)), QueueOf(Reopened(req, o.queue, plan).value));
    if StandsInTurn(req.external, req.exclude, o, w) {
      ReplansTheRest(req.resting, req.external, req.exclude, o, w);
      RecutKeepsOwners(req.resting, Rest(o.queue, w.filled));
    } else if Owners(again) == Owners(Rest(o.queue, w.filled)) {
      OwnersTellTurns(req.resting, req.external, req.exclude, o, w);
    }
  }

  lemma RecutKeepsOwners(resting: seq<Row>, q: seq<Lot<Id>>)
    ensures Owners(RecutAll(resting, q)) == Owners(q)
  {
  }

  lemma TradesAsServed(o: Start, w: Walk)
    requires Good(o, w)
    ensures TradeTape(w.slices) == Tape(o.queue, w.filled)
  {
  }

  lemma {:induction false} StatesAreFew(rows: seq<Row>, exclude: Option<string>, n: nat)
    requires n <= |rows| && StatesOf(rows, exclude, n).Success?
    ensures |StatesOf(rows, exclude, n).value| <= n
  {
    if n > 0 { StatesAreFew(rows, exclude, n - 1); }
  }

  lemma UntouchedRowsShowShares(req: Request, o: Start, w: Walk)
    requires RowsKept(o, w.states) && ReadsRows(o.states, req.resting, req.exclude, |req.resting|)
    ensures forall k :: 0 <= k < |w.states| && !o.states[k].tradeable ==> w.states[k].qty > 0
  {
    forall k | 0 <= k < |w.states| && !o.states[k].tradeable
      ensures w.states[k].qty > 0
    {
      assert SameRow(w.states[k], o.states[k]);
      assert ReadRow(req.resting[o.states[k].index], o.states[k].index, req.exclude) == Keep(o.states[k]);
    }
  }

  lemma CoversRows(req: Request, book: Opened)
    requires Admit(req) == Success(book)
    ensures forall i :: 0 <= i < |req.resting| && req.resting[i].qty != 0 ==>
      exists k :: 0 <= k < |book.states| && book.states[k].index == i
  {
    forall i | 0 <= i < |req.resting| && req.resting[i].qty != 0
      ensures exists k :: 0 <= k < |book.states| && book.states[k].index == i
    {
      var k := StatesCoverRows(req.resting, req.exclude, |req.resting|, i);
    }
  }

  lemma BookPricesArePositive(req: Request, book: Opened)
    requires Admit(req) == Success(book)
    ensures PositivePrices(QueueOf(book))
  {
    OpenedItems(req.side.Buying(), req.resting, req.external, req.exclude);
    forall i | 0 <= i < |book.items|
      ensures book.items[i].price > 0
    {
      assert FromBook(book.items[i], book.states, req.external);
      if !book.items[i].external {
        var s := book.states[book.items[i].slot];
        assert ReadRow(req.resting[s.index], s.index, req.exclude) == Keep(s);
      }
    }
  }

  /** A cost that does not fit within the first `m` shares does not fit within the whole fill either. */
  lemma OverflowIsReal(req: Request, book: Opened, n: nat, over: nat)
    requires Admit(req) == Success(book)
    requires Cost(Tape(QueueOf(book), n + over)) > MAX_SAFE
    requires n + over <= req.quantity && n + over <= Depth(QueueOf(book), BandOf(req))
    ensures Cost(Tape(QueueOf(book), Lesser(req.quantity, Depth(QueueOf(book), BandOf(req))))) > MAX_SAFE
  {
    hide Admit, Tape, Depth, BandOf, QueueOf, Cost;
    BookPricesArePositive(req, book);
    TapeCostGrows(QueueOf(book), n + over, Lesser(req.quantity, Depth(QueueOf(book), BandOf(req))) - (n + over));
  }

  /** Validates the request and lines up its work. */
  method OpenRequest(req: Request) returns (r: Result<Opened, PlanError>, floor: real)
    ensures r == Admit(req) && floor >= 0.0
    ensures r.Success? ==>
      && Good(StartOf(req, r.value), Walk(r.value.states, r.value.items, [], 0, floor))
      && Books(req, StartOf(req, r.value), Walk(r.value.states, r.value.items, [], 0, floor), req.quantity, 0)
      && ReadsRows(r.value.states, req.resting, req.exclude, |req.resting|)
  {
    hide Good, Books, ReadsRows, RowItems, QuotesOf, StatesOf;
    floor := 0.0;
    if !(1 <= req.quantity <= MAX_REQUESTED_QTY) { return Failure(BadQuantity), 0.0; }
    if !(1 <= CapOf(req) <= MAX_SLICES) { return Failure(BadSliceCap), 0.0; }
    if req.limit.Some? && !IsPrice(req.limit.value) { return Failure(BadPrice), 0.0; }
    var up := req.side.Buying();
    var rows := BuildRestingStates(req.resting, req.exclude);
    if rows.Failure? { return Failure(rows.error), 0.0; }
    var quotes := BuildExternalStates(req.external);
    if quotes.Failure? { return Failure(quotes.error), 0.0; }
    var unsorted;
    unsorted, floor := CollectItems(rows.value, quotes.value);
    var book := Opened(rows.value, Sorting.SortBy(ItemOrder(up), unsorted));
    StartsGood(req, book, unsorted, floor);
    return Success(book), floor;
  }

  lemma QueueIsClocked(o: Start, w: Walk, items: seq<Item>, cursor: nat)
    requires Good(o, w) && cursor <= |items| && w.pending == items[cursor..]
    ensures o.latest >= 0.0 && forall i :: cursor <= i < |items| ==> items[i].time <= o.latest
  {
    hide Lined, QuotesKept, RowsKept, Traded;
    assert forall i :: cursor <= i < |items| ==> items[i] == w.pending[i - cursor];
  }

  /** Walks the price levels, best first, until the request is filled, refused, capped or too large. */
  method WalkLevels(req: Request, book: Opened, floor: real)
    returns (ok: bool, capHit: bool, items: seq<Item>, states: seq<State>, slices: seq<Slice>, remaining: int,
             cents: int, ghost w: Walk)
    requires Admit(req) == Success(book) && floor >= 0.0
    requires Good(StartOf(req, book), Walk(book.states, book.items, [], 0, floor))
    requires Books(req, StartOf(req, book), Walk(book.states, book.items, [], 0, floor), req.quantity, 0)
    requires ReadsRows(book.states, req.resting, req.exclude, |req.resting|)
    ensures !ok ==> Cost(Tape(QueueOf(book), Lesser(req.quantity, Depth(QueueOf(book), BandOf(req))))) > MAX_SAFE
    ensures ok ==> Good(StartOf(req, book), w) && Books(req, StartOf(req, book), w, remaining, cents)
    ensures ok ==> w.states == states && w.slices == slices && |slices| <= CapOf(req)
    ensures ok && capHit ==> remaining > 0 && |slices| >= CapOf(req) && Backed(items, w.pending)
    ensures ok && !capHit && remaining > 0 ==> Depth(Rest(QueueOf(book), w.filled), BandOf(req)) == 0
  {
    hide Good, Books, Rest, Depth, Cost, Tape, ReadsRows, OpenBook, LotsOf, QueueOf, QuotesOf, StatesOf, Band.Allows,
         BandOf, Backed;
    ghost var o := StartOf(req, book);
    ok, capHit, items, states, slices, remaining, cents := true, false, book.items, book.states, [], req.quantity, 0;
    w := Walk(states, items, [], 0, floor);
    assert CapOf(req) >= 1;
    hide Admit;
    var counter, cursor := floor, 0;
    while cursor < |items| && remaining > 0
      invariant Good(o, w) && Books(req, o, w, remaining, cents)
      invariant w == Walk(states, w.pending, slices, w.filled, counter) && counter >= 0.0
      invariant |slices| <= CapOf(req) && cursor <= |items|
      invariant remaining > 0 ==> w.pending == items[cursor..] && Zeroed(items, cursor)
      decreases |items| - cursor
    {
      if !BandOf(req).Allows(items[cursor].price) { break; }
      QueueIsClocked(o, w, items, cursor);
      var level, next, levelMaxTime := OpenLevel(items, cursor, o.latest);
      ghost var v, over, left, was := w, 0, remaining, cents;
      ok, capHit, items, states, slices, remaining, cents, counter, v, over :=
        WalkLevel(req, o, w, items, cursor, next, level, levelMaxTime, states, slices, remaining, cents, counter);
      if !ok {
        LevelOverflows(req, book, w, left, was, over);
        return;
      }
      w, cursor := v, next;
      if capHit { return; }
    }
    if remaining > 0 {
      RefusedHeadMeansNoDepth(req, o, w);
    }
  }

  /**
   Plans an execution against resting rows and external quotes. It fails only for an inadmissible
   request or when the notional leaves integer-cent arithmetic.
   */
  method PlanFiniteExecution(req: Request) returns (r: Result<Plan, PlanError>, ghost origins: seq<nat>)
    ensures r.Success? ==> IsPlan(req, r.value, origins)
    ensures Admit(req).Failure? ==> r == Failure(Admit(req).error)
    ensures Admit(req).Success? && r.Failure? ==>
      && r.error == NotionalOverflow
      && var q := QueueOf(Admit(req).value);
         Cost(Tape(q, Lesser(req.quantity, Depth(q, BandOf(req))))) > MAX_SAFE
  {
    hide Good, Books, Rest, Depth, Cost, Tape, ReadsRows, Admit, OpenBook, LotsOf, QueueOf, BandOf, IsPlan, Backed,
         StopsRight, Survivors;
    origins := [];
    var book, floor := OpenRequest(req);
    if book.Failure? { return Failure(book.error), []; }
    var ok, capHit, items, states, slices, remaining, cents; ghost var w;
    ok, capHit, items, states, slices, remaining, cents, w := WalkLevels(req, book.value, floor);
    if !ok { return Failure(NotionalOverflow), []; }
    BooksAreSane(req, StartOf(req, book.value), w, remaining, cents);
    var truncated := false;
    if capHit && remaining > 0 {
      truncated := HasFillableDepth(states, items, BandOf(req));
      FillableMeansDepth(StartOf(req, book.value), w, items, BandOf(req));
    }
    var survivors := Survivors(states, req.side.Buying());
    var plan := Plan(req.quantity, req.quantity - remaining, remaining, cents, RestingAfter(survivors), slices,
                     truncated);
    origins := Origins(survivors);
    StopsForAReason(req, book.value, w, plan);
    FinishesAsPlan(req, book.value, w, plan);
    return Success(plan), origins;
  }

  lemma BooksAreSane(req: Request, o: Start, w: Walk, remaining: int, cents: int)
    requires Books(req, o, w, remaining, cents)
    ensures 0 <= remaining && w.filled == req.quantity - remaining && cents >= 0
  {
  }

  lemma SortedStampsStayBelow(up: bool, unsorted: seq<Item>, floor: real)
    requires forall i :: 0 <= i < |unsorted| ==> unsorted[i].sequence <= floor
    ensures var items := Sorting.SortBy(ItemOrder(up), unsorted);
      forall i :: 0 <= i < |items| ==> items[i].sequence <= floor
  {
    var items := Sorting.SortBy(ItemOrder(up), unsorted);
    ItemOrderIsTotal(up);
    Sorting.SortIsOrderedPermutation(ItemOrder(up), unsorted);
    Sorting.PermutationKeepsMembers(unsorted, items);
    forall i | 0 <= i < |items|
      ensures items[i].sequence <= floor
    {
      assert items[i] in unsorted;
    }
  }

  lemma StartsGood(req: Request, book: Opened, unsorted: seq<Item>, floor: real)
    requires Admit(req) == Success(book)
    requires unsorted == RowItems(book.states, |book.states|) + QuoteItems(QuotesOf(req.external, |req.external|).value)
    requires forall i :: 0 <= i < |unsorted| ==> unsorted[i].sequence <= floor
    ensures book.items == Sorting.SortBy(ItemOrder(req.side.Buying()), unsorted)
    ensures Good(StartOf(req, book), Walk(book.states, book.items, [], 0, floor))
    ensures Books(req, StartOf(req, book), Walk(book.states, book.items, [], 0, floor), req.quantity, 0)
    ensures ReadsRows(book.states, req.resting, req.exclude, |req.resting|)
  {
    hide Good, StatesOf, RowItems, QuotesOf, LotsOf, ReadsRows, FromBook, Latest, Sorting.Strict;
    var up := req.side.Buying();
    AdmittedIsSorted(req, book);
    hide OpenBook, Admit;
    SortedStampsStayBelow(up, unsorted, floor);
    OpensGood(up, req.resting, req.external, req.exclude, floor);
    OpenedItems(up, req.resting, req.external, req.exclude);
  }

  lemma AdmittedIsSorted(req: Request, book: Opened)
    requires Admit(req) == Success(book)
    ensures var up := req.side.Buying();
      && OpenBook(up, req.resting, req.external, req.exclude) == Success(book)
      && QuotesOf(req.external, |req.external|).Success?
      && var quotes := QuoteItems(QuotesOf(req.external, |req.external|).value);
         book.items == Sorting.SortBy(ItemOrder(up), RowItems(book.states, |book.states|) + quotes)
  {
    hide StatesOf, RowItems, QuotesOf;
  }

  lemma LevelOverflows(req: Request, book: Opened, w: Walk, remaining: int, cents: int, over: nat)
    requires Admit(req) == Success(book) && Books(req, StartOf(req, book), w, remaining, cents)
    requires over <= remaining && over <= Depth(Rest(QueueOf(book), w.filled), BandOf(req))
    requires Cost(Tape(QueueOf(book), w.filled + over)) > MAX_SAFE
    ensures Cost(Tape(QueueOf(book), Lesser(req.quantity, Depth(QueueOf(book), BandOf(req))))) > MAX_SAFE
  {
    OverflowIsReal(req, book, w.filled, over);
  }

  lemma StopsForAReason(req: Request, book: Opened, w: Walk, plan: Plan)
    requires Books(req, StartOf(req, book), w, plan.remaining, plan.totalCents) && plan.requested == req.quantity
    requires plan.filled == w.filled && plan.slices == w.slices && |w.slices| <= CapOf(req)
    requires plan.remaining == 0 || |w.slices| >= CapOf(req) || Depth(Rest(QueueOf(book), w.filled), BandOf(req)) == 0
    requires plan.truncated <==> plan.remaining > 0 && Depth(Rest(QueueOf(book), w.filled), BandOf(req)) > 0
    ensures StopsRight(req, QueueOf(book), plan)
  {
  }
}
