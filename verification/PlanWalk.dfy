/**
 The planner's working objects and what one slice does to them. `Good` ties the mutable walk, with
 its states, clocks and sequence stamps, to the share queue; the three step lemmas say that every
 kind of slice keeps the tie.
 */
module PlanWalk {
  import opened Wrappers
  import opened Liquidity
  import opened ShareQueue
  import Sorting

  /** A unit of work: a resting row's visible shares, or an external quote. */
  datatype Item = Item(external: bool, index: nat, price: int, time: real, sequence: real, quantity: nat, slot: nat)

  datatype Slice = Slice(external: bool, index: nat, price: int, quantity: nat, order: Option<Row>)

  datatype Id = Resting(index: nat) | Quoted(index: nat)

  predicate Before(a: Item, b: Item, up: bool) {
    if a.price != b.price then (if up then a.price < b.price else a.price > b.price)
    else if a.time != b.time then a.time < b.time
    else if a.sequence != b.sequence then a.sequence < b.sequence
    else if a.external != b.external then !a.external
    else a.index < b.index
  }

  function ItemOrder(up: bool): (Item, Item) -> bool { (a, b) => !Before(b, a, up) }

  lemma ItemOrderIsTotal(up: bool)
    ensures Sorting.TotalPreorder(ItemOrder(up))
  {
  }

  function IdOf(external: bool, index: nat): Id { if external then Quoted(index) else Resting(index) }

  /** The quantities an iceberg will show after its current one. */
  function Refills(hidden: nat, display: nat): seq<nat>
    decreases hidden
  {
    if hidden == 0 || display == 0 then []
    else
      var shown := if display <= hidden then display else hidden;
      [shown] + Refills(hidden - shown, display)
  }

  lemma {:induction false} RefillsShowAll(hidden: nat, display: nat)
    requires display > 0
    ensures Sum(Refills(hidden, display)) == hidden
    ensures forall i :: 0 <= i < |Refills(hidden, display)| ==> Refills(hidden, display)[i] > 0
    decreases hidden
  {
    if hidden > 0 {
      var shown := if display <= hidden then display else hidden;
      RefillsShowAll(hidden - shown, display);
    }
  }

  function LotOf(states: seq<State>, item: Item): Lot<Id> {
    Lot(IdOf(item.external, item.index), item.price, item.quantity,
        if item.external || item.slot >= |states| then []
        else Refills(states[item.slot].hidden, states[item.slot].display))
  }

  function LotsOf(states: seq<State>, items: seq<Item>): (q: seq<Lot<Id>>)
    ensures |q| == |items| && forall i :: 0 <= i < |items| ==> q[i] == LotOf(states, items[i])
  {
    seq(|items|, i requires 0 <= i < |items| => LotOf(states, items[i]))
  }

  /** The slices, share by share. */
  function TradeTape(slices: seq<Slice>): seq<Share<Id>> {
    if slices == [] then []
    else
      var last := slices[|slices| - 1];
      TradeTape(slices[..|slices| - 1]) + Copies(Share(IdOf(last.external, last.index), last.price), last.quantity)
  }

  lemma TradeTapeGrows(slices: seq<Slice>, s: Slice)
    ensures TradeTape(slices + [s]) == TradeTape(slices) + Copies(Share(IdOf(s.external, s.index), s.price), s.quantity)
  {
    assert (slices + [s])[..|slices|] == slices;
  }

  /** What an execution must not change about a resting row. */
  predicate SameRow(s: State, t: State) {
    && s == t.(qty := s.qty, hidden := s.hidden, time := s.time, sequence := s.sequence, revealed := s.revealed)
    && s.hidden <= t.hidden && s.qty + s.hidden <= t.qty + t.hidden
    && s.time >= 0.0 && s.sequence >= 0.0
    && (!s.revealed ==> s.time == t.time && s.sequence == t.sequence)
    && (s.revealed ==> s.hidden < t.hidden)
    && (!t.tradeable ==> s == t)
  }

  datatype Walk = Walk(states: seq<State>, pending: seq<Item>, slices: seq<Slice>, filled: nat, counter: real)

  /** Where the walk started: the states as read, the queue they form, the direction, and the latest clock seen. */
  datatype Start = Start(states: seq<State>, external: seq<Quote>, queue: seq<Lot<Id>>, up: bool, latest: real)

  ghost predicate Matches(states: seq<State>, p: Item) {
    && p.quantity > 0
    && (!p.external ==>
      && p.slot < |states|
      && var s := states[p.slot];
         && s.tradeable && s.display > 0 && s.qty == p.quantity && s.index == p.index
         && s.price == p.price && s.time == p.time && s.sequence == p.sequence)
  }

  ghost predicate PendingMatches(w: Walk) {
    forall i :: 0 <= i < |w.pending| ==> Matches(w.states, w.pending[i])
  }

  ghost predicate DistinctIds(pending: seq<Item>) {
    forall i, j :: 0 <= i < j < |pending| && pending[i].external == pending[j].external ==>
      pending[i].index != pending[j].index
  }

  predicate Queued(pending: seq<Item>, k: nat) {
    exists i :: 0 <= i < |pending| && !pending[i].external && pending[i].slot == k
  }

  ghost predicate OthersSpent(w: Walk) {
    forall k :: 0 <= k < |w.states| && w.states[k].tradeable && !Queued(w.pending, k) ==>
      w.states[k].qty == 0 && w.states[k].hidden == 0
  }

  ghost predicate RowsKept(o: Start, states: seq<State>) {
    |states| == |o.states| && forall k :: 0 <= k < |states| ==> SameRow(states[k], o.states[k])
  }

  ghost predicate Stamped(w: Walk) {
    forall i :: 0 <= i < |w.pending| ==> w.pending[i].sequence <= w.counter
  }

  ghost predicate Traded(o: Start, w: Walk) {
    LotsOf(w.states, w.pending) == Rest(o.queue, w.filled) && TradeTape(w.slices) == Tape(o.queue, w.filled)
  }

  lemma LotsAreLive(w: Walk)
    requires PendingMatches(w)
    ensures AllLive(LotsOf(w.states, w.pending))
  {
    forall i | 0 <= i < |w.pending|
      ensures Live(LotOf(w.states, w.pending[i]))
    {
      var p := w.pending[i];
      assert Matches(w.states, p);
      if !p.external {
        RefillsShowAll(w.states[p.slot].hidden, w.states[p.slot].display);
      }
    }
  }

  /** The share queue after the head item gives up `take` shares in one slice. */
  lemma SliceServes(o: Start, w: Walk, take: nat, s: Slice)
    requires Traded(o, w) && w.pending != [] && 1 <= take <= w.pending[0].quantity
    requires s.external == w.pending[0].external && s.index == w.pending[0].index
    requires s.price == w.pending[0].price && s.quantity == take
    ensures TradeTape(w.slices + [s]) == Tape(o.queue, w.filled + take)
    ensures AfterTake(LotsOf(w.states, w.pending), take) == Rest(o.queue, w.filled + take)
  {
    TradeTapeGrows(w.slices, s);
    SliceIsShares(LotsOf(w.states, w.pending), take);
    ServingComposes(o.queue, w.filled, take);
  }

  /** The states once row `p` points at has become `t`; an external item has no row. */
  function Updated(states: seq<State>, p: Item, t: State): seq<State> {
    if p.external || p.slot >= |states| then states else states[p.slot := t]
  }

  /** Touching the head's row leaves everything behind it in the queue as it was. */
  lemma OthersUnaffected(w: Walk, t: State)
    requires PendingMatches(w) && DistinctIds(w.pending) && w.pending != []
    ensures forall i :: 1 <= i < |w.pending| ==> Matches(Updated(w.states, w.pending[0], t), w.pending[i])
    ensures LotsOf(Updated(w.states, w.pending[0], t), w.pending[1..]) == LotsOf(w.states, w.pending[1..])
  {
    var after := Updated(w.states, w.pending[0], t);
    forall i | 1 <= i < |w.pending|
      ensures Matches(after, w.pending[i]) && LotOf(after, w.pending[i]) == LotOf(w.states, w.pending[i])
    {
      assert Matches(w.states, w.pending[i]);
      assert Matches(w.states, w.pending[0]);
    }
  }

  /** A row may be charged or shown again, nothing else. */
  lemma RowsStayKept(o: Start, states: seq<State>, p: Item, t: State)
    requires RowsKept(o, states)
    requires !p.external && p.slot < |states| ==> SameRow(t, o.states[p.slot])
    ensures RowsKept(o, Updated(states, p, t))
  {
  }

  /** Rows that were spent stay spent, as long as the queue only loses the head's row. */
  lemma SpentStaySpent(w: Walk, t: State, v: Walk)
    requires OthersSpent(w) && w.pending != [] && v.states == Updated(w.states, w.pending[0], t)
    requires forall i :: 1 <= i < |w.pending| ==> w.pending[i] in v.pending
    requires !w.pending[0].external ==> Queued(v.pending, w.pending[0].slot) || (t.qty == 0 && t.hidden == 0)
    ensures OthersSpent(v)
  {
    forall k | 0 <= k < |v.states| && v.states[k].tradeable && !Queued(v.pending, k)
      ensures v.states[k].qty == 0 && v.states[k].hidden == 0
    {
      if Queued(w.pending, k) {
        var i :| 0 <= i < |w.pending| && !w.pending[i].external && w.pending[i].slot == k;
        assert i == 0;
      }
    }
  }

  /** What one slice reports about the head item. */
  predicate Reports(s: Slice, p: Item, take: nat) {
    s.external == p.external && s.index == p.index && s.price == p.price && s.quantity == take
  }

  lemma RestIsStrict(up: bool, pending: seq<Item>)
    requires Sorting.Strict(ItemOrder(up), pending) && pending != []
    ensures Sorting.Strict(ItemOrder(up), pending[1..])
  {
  }

  /** A smaller quantity does not move the head item. */
  lemma HeadKeepsPlace(up: bool, pending: seq<Item>, left: nat)
    requires Sorting.Strict(ItemOrder(up), pending) && pending != []
    ensures Sorting.Strict(ItemOrder(up), [pending[0].(quantity := left)] + pending[1..])
  {
    var le, q := ItemOrder(up), [pending[0].(quantity := left)] + pending[1..];
    forall i, j | 0 <= i < j < |q|
      ensures le(q[i], q[j]) && !le(q[j], q[i])
    {
      assert le(pending[i], pending[j]) && !le(pending[j], pending[i]);
      assert q[j] == pending[j];
    }
  }

  /** What the queue looks like to the walk: every entry backed by its row, in strict order. */
  ghost predicate Lined(up: bool, w: Walk) {
    && PendingMatches(w) && DistinctIds(w.pending) && OthersSpent(w) && Sorting.Strict(ItemOrder(up), w.pending)
    && Stamped(w)
  }

  /** Every entry of the new queue is the head's row, changed, or an old entry left alone. */
  lemma LinedFromParts(w: Walk, t: State, v: Walk, at: nat)
    requires PendingMatches(w) && DistinctIds(w.pending) && OthersSpent(w) && w.pending != []
    requires v.states == Updated(w.states, w.pending[0], t) && |v.pending| == |w.pending| && at < |w.pending|
    requires forall i :: 0 <= i < |v.pending| && i != at ==> v.pending[i] == w.pending[if i < at then i + 1 else i]
    requires Matches(v.states, v.pending[at])
    requires v.pending[at].external == w.pending[0].external && v.pending[at].slot == w.pending[0].slot
    requires v.pending[at].index == w.pending[0].index
    ensures PendingMatches(v) && DistinctIds(v.pending) && OthersSpent(v)
  {
    OthersUnaffected(w, t);
    forall i | 1 <= i < |w.pending|
      ensures w.pending[i] in v.pending
    {
      assert w.pending[i] == v.pending[if i <= at then i - 1 else i];
    }
    assert !w.pending[0].external ==> Queued(v.pending, w.pending[0].slot);
    SpentStaySpent(w, t, v);
  }

  lemma LinedPartial(up: bool, w: Walk, take: nat, t: State, v: Walk)
    requires Lined(up, w) && w.pending != [] && 1 <= take < w.pending[0].quantity
    requires !w.pending[0].external && w.pending[0].slot < |w.states| ==>
      t == w.states[w.pending[0].slot].(qty := w.pending[0].quantity - take)
    requires v.pending == [w.pending[0].(quantity := w.pending[0].quantity - take)] + w.pending[1..]
    requires v.states == Updated(w.states, w.pending[0], t) && v.counter == w.counter
    ensures Lined(up, v)
  {
    assert Matches(w.states, w.pending[0]);
    HeadKeepsPlace(up, w.pending, w.pending[0].quantity - take);
    LinedFromParts(w, t, v, 0);
  }

  lemma LinedSpent(up: bool, w: Walk, t: State, v: Walk)
    requires Lined(up, w) && w.pending != []
    requires !w.pending[0].external && w.pending[0].slot < |w.states| ==>
      t == w.states[w.pending[0].slot].(qty := 0) && t.hidden == 0
    requires v.pending == w.pending[1..] && v.states == Updated(w.states, w.pending[0], t) && v.counter == w.counter
    ensures Lined(up, v)
  {
    assert Matches(w.states, w.pending[0]);
    OthersUnaffected(w, t);
    RestIsStrict(up, w.pending);
    assert forall i :: 0 <= i < |v.pending| ==> v.pending[i] == w.pending[i + 1];
    assert forall i :: 1 <= i < |w.pending| ==> v.pending[i - 1] == w.pending[i];
    SpentStaySpent(w, t, v);
  }

  /** The stamps of a revealed lot put it behind its level and before every worse price. */
  lemma RevealedIsLast(up: bool, pending: seq<Item>, counter: real, mid: seq<Item>, far: seq<Item>, back: Item)
    requires Sorting.Strict(ItemOrder(up), pending) && pending != [] && pending[1..] == mid + far
    requires forall i :: 0 <= i < |mid| ==>
      mid[i].price == back.price && mid[i].time <= back.time && mid[i].sequence <= counter
    requires far == [] || far[0].price != back.price
    requires back.price == pending[0].price && back.sequence == counter + 1.0
    ensures Sorting.Strict(ItemOrder(up), mid + [back] + far)
  {
    var le, q, m := ItemOrder(up), mid + [back] + far, |mid|;
    forall i, j | 0 <= i < j < |q|
      ensures le(q[i], q[j]) && !le(q[j], q[i])
    {
      if j < m {
        assert q[i] == pending[i + 1] && q[j] == pending[j + 1];
      } else if j == m {
      } else if i == m {
        assert far[0] == pending[m + 1] && q[j] == pending[j];
        assert le(pending[0], far[0]) && (m + 1 < j ==> le(far[0], pending[j]));
      } else {
        assert q[j] == pending[j] && q[i] == pending[if i < m then i + 1 else i];
      }
    }
  }

  lemma LinedReveal(up: bool, w: Walk, t: State, mid: seq<Item>, far: seq<Item>, back: Item, v: Walk)
    requires Lined(up, w) && w.pending != [] && !w.pending[0].external
    requires w.pending[1..] == mid + far
    requires forall i :: 0 <= i < |mid| ==> mid[i].price == w.pending[0].price && mid[i].time <= back.time
    requires far == [] || far[0].price != w.pending[0].price
    requires back.sequence == w.counter + 1.0 && back.price == w.pending[0].price && back.slot == w.pending[0].slot
    requires back.index == w.pending[0].index && !back.external
    requires Matches(v.states, back)
    requires v.pending == mid + [back] + far && v.states == Updated(w.states, w.pending[0], t)
    requires v.counter == w.counter + 1.0
    ensures Lined(up, v)
  {
    var m := |mid|;
    assert forall i :: 0 <= i < m ==> mid[i] == w.pending[i + 1];
    assert forall i :: 0 <= i < |far| ==> far[i] == w.pending[m + 1 + i];
    RevealedIsLast(up, w.pending, w.counter, mid, far, back);
    LinedFromParts(w, t, v, m);
  }

  function QuoteItem(q: QuoteState): Item {
    Item(true, q.index, q.price, q.time, q.sequence, q.size, 0)
  }

  /** A queued quote is the quote as read, but for its size. */
  ghost predicate QuoteKept(external: seq<Quote>, p: Item) {
    p.external ==>
      && p.index < |external|
      && var reading := ReadQuote(external[p.index], p.index);
         reading.Keep? && p == QuoteItem(reading.state).(quantity := p.quantity)
  }

  ghost predicate QuotesKept(external: seq<Quote>, pending: seq<Item>) {
    forall i :: 0 <= i < |pending| ==> QuoteKept(external, pending[i])
  }

  /** No stamp runs ahead of the clocks that were read. */
  ghost predicate Clocked(o: Start, w: Walk) {
    && o.latest >= 0.0
    && (forall k :: 0 <= k < |w.states| ==> w.states[k].time <= o.latest)
    && (forall i :: 0 <= i < |w.pending| ==> w.pending[i].time <= o.latest)
  }

  ghost predicate Good(o: Start, w: Walk) {
    RowsKept(o, w.states) && QuotesKept(o.external, w.pending) && Lined(o.up, w) && Traded(o, w) && Clocked(o, w)
  }

  /** The request runs out inside the head item, which keeps its place. */
  lemma StepPartial(o: Start, w: Walk, take: nat, s: Slice, t: State, v: Walk)
    requires Good(o, w) && w.pending != [] && 1 <= take < w.pending[0].quantity && Reports(s, w.pending[0], take)
    requires !w.pending[0].external && w.pending[0].slot < |w.states| ==>
      t == w.states[w.pending[0].slot].(qty := w.pending[0].quantity - take)
    requires v == Walk(Updated(w.states, w.pending[0], t),
                       [w.pending[0].(quantity := w.pending[0].quantity - take)] + w.pending[1..],
                       w.slices + [s], w.filled + take, w.counter)
    ensures Good(o, v)
  {
    hide Traded;
    var p := w.pending[0];
    assert Matches(w.states, p);
    PartialTrades(o, w, take, s, t, v);
    OthersUnaffected(w, t);
    RowsStayKept(o, w.states, p, t);
    LinedPartial(o.up, w, take, t, v);
    hide Lined, RowsKept, Matches, LotsOf;
    assert QuotesKept(o.external, v.pending) by {
      assert QuoteKept(o.external, p);
    }
  }

  lemma PartialTrades(o: Start, w: Walk, take: nat, s: Slice, t: State, v: Walk)
    requires PendingMatches(w) && DistinctIds(w.pending) && Traded(o, w) && w.pending != []
    requires 1 <= take < w.pending[0].quantity && Reports(s, w.pending[0], take)
    requires !w.pending[0].external && w.pending[0].slot < |w.states| ==>
      t == w.states[w.pending[0].slot].(qty := w.pending[0].quantity - take)
    requires v == Walk(Updated(w.states, w.pending[0], t),
                       [w.pending[0].(quantity := w.pending[0].quantity - take)] + w.pending[1..],
                       w.slices + [s], w.filled + take, w.counter)
    ensures Traded(o, v)
  {
    hide Refills, Tape, Rest, TradeTape;
    assert Matches(w.states, w.pending[0]);
    SliceServes(o, w, take, s);
    OthersUnaffected(w, t);
    hide PendingMatches, DistinctIds;
    assert LotsOf(v.states, v.pending) == [LotOf(v.states, v.pending[0])] + LotsOf(v.states, w.pending[1..]);
    assert LotsOf(w.states, w.pending)[1..] == LotsOf(w.states, w.pending[1..]);
  }

  /** A visible quantity that hides nothing more leaves the queue. */
  lemma StepSpent(o: Start, w: Walk, s: Slice, t: State, v: Walk)
    requires Good(o, w) && w.pending != [] && Reports(s, w.pending[0], w.pending[0].quantity)
    requires !w.pending[0].external && w.pending[0].slot < |w.states| ==>
      t == w.states[w.pending[0].slot].(qty := 0) && t.hidden == 0
    requires v == Walk(Updated(w.states, w.pending[0], t), w.pending[1..], w.slices + [s],
                       w.filled + w.pending[0].quantity, w.counter)
    ensures Good(o, v)
  {
    var p := w.pending[0];
    assert Matches(w.states, p);
    SliceServes(o, w, p.quantity, s);
    OthersUnaffected(w, t);
    RowsStayKept(o, w.states, p, t);
    LinedSpent(o.up, w, t, v);
    assert LotsOf(w.states, w.pending)[1..] == LotsOf(w.states, w.pending[1..]);
  }

  /** In the share queue the revealed lot sits exactly where the walk put it. */
  lemma RequeuedLots(w: Walk, after: seq<State>, mid: seq<Item>, far: seq<Item>, back: Item)
    requires w.pending != [] && w.pending[1..] == mid + far
    requires LotsOf(after, w.pending[1..]) == LotsOf(w.states, w.pending[1..])
    requires forall i :: 0 <= i < |mid| ==> mid[i].price == back.price
    requires far == [] || far[0].price != back.price
    requires var h := LotOf(w.states, w.pending[0]);
      h.refills != [] && LotOf(after, back) == h.(qty := h.refills[0], refills := h.refills[1..])
    ensures Exhaust(LotsOf(w.states, w.pending)) == LotsOf(after, mid + [back] + far)
  {
    hide Refills;
    var a, b := LotsOf(after, mid), LotsOf(after, far);
    assert LotsOf(w.states, w.pending)[1..] == LotsOf(w.states, w.pending[1..]) == a + b;
    RequeueGoesBehindItsLevel(a, b, LotOf(after, back));
    assert LotsOf(after, mid + [back] + far) == a + [LotOf(after, back)] + b;
  }

  lemma QuotesStayKept(external: seq<Quote>, pending: seq<Item>, mid: seq<Item>, far: seq<Item>, back: Item)
    requires QuotesKept(external, pending) && pending != [] && pending[1..] == mid + far && !back.external
    ensures QuotesKept(external, mid + [back] + far)
  {
    forall i | 0 <= i < |mid + [back] + far|
      ensures QuoteKept(external, (mid + [back] + far)[i])
    {
      assert i < |mid| ==> mid[i] == pending[i + 1];
      assert i > |mid| ==> far[i - |mid| - 1] == pending[i];
    }
  }

  lemma RevealKeepsClock(o: Start, w: Walk, t: State, mid: seq<Item>, far: seq<Item>, back: Item, v: Walk)
    requires Clocked(o, w) && w.pending != [] && w.pending[1..] == mid + far && back.time <= o.latest
    requires w.pending[0].slot < |w.states| ==> t.time == back.time
    requires v.states == Updated(w.states, w.pending[0], t) && v.pending == mid + [back] + far
    ensures Clocked(o, v)
  {
    assert forall i :: 0 <= i < |mid| ==> mid[i] == w.pending[i + 1];
    assert forall i :: 0 <= i < |far| ==> far[i] == w.pending[|mid| + 1 + i];
  }

  /** What one reveal does: the head's row shows its next quantity, stamped behind its level. */
  ghost predicate Reveals(o: Start, w: Walk, s: Slice, t: State, mid: seq<Item>, far: seq<Item>, back: Item, v: Walk) {
    && w.pending != [] && Reports(s, w.pending[0], w.pending[0].quantity) && !w.pending[0].external
    && w.pending[1..] == mid + far
    && (forall i :: 0 <= i < |mid| ==> mid[i].price == w.pending[0].price && mid[i].time <= back.time)
    && (far == [] || far[0].price != w.pending[0].price)
    && 0.0 <= back.time <= o.latest && w.counter >= 0.0
    && (w.pending[0].slot < |w.states| ==>
      var u := w.states[w.pending[0].slot];
      var shown := if u.display <= u.hidden then u.display else u.hidden;
      && u.hidden > 0
      && t == u.(qty := shown, hidden := u.hidden - shown, revealed := true, time := back.time,
                 sequence := back.sequence)
      && back == Item(false, u.index, u.price, back.time, w.counter + 1.0, shown, w.pending[0].slot))
    && v == Walk(Updated(w.states, w.pending[0], t), mid + [back] + far, w.slices + [s],
                 w.filled + w.pending[0].quantity, w.counter + 1.0)
  }

  lemma RevealKeepsRows(o: Start, w: Walk, s: Slice, t: State, mid: seq<Item>, far: seq<Item>, back: Item, v: Walk)
    requires RowsKept(o, w.states) && QuotesKept(o.external, w.pending) && Lined(o.up, w)
    requires Reveals(o, w, s, t, mid, far, back, v)
    ensures RowsKept(o, v.states) && QuotesKept(o.external, v.pending) && Lined(o.up, v)
  {
    var p := w.pending[0];
    assert Matches(w.states, p);
    OthersUnaffected(w, t);
    RowsStayKept(o, w.states, p, t);
    LinedReveal(o.up, w, t, mid, far, back, v);
    QuotesStayKept(o.external, w.pending, mid, far, back);
  }

  lemma RevealKeepsTrade(o: Start, w: Walk, s: Slice, t: State, mid: seq<Item>, far: seq<Item>, back: Item, v: Walk)
    requires PendingMatches(w) && DistinctIds(w.pending) && Traded(o, w) && Reveals(o, w, s, t, mid, far, back, v)
    ensures Traded(o, v)
  {
    var p := w.pending[0];
    assert Matches(w.states, p);
    SliceServes(o, w, p.quantity, s);
    OthersUnaffected(w, t);
    RequeuedLots(w, v.states, mid, far, back);
  }

  /** An iceberg shows its next quantity at the back of its level. */
  lemma StepReveal(o: Start, w: Walk, s: Slice, t: State, mid: seq<Item>, far: seq<Item>, back: Item, v: Walk)
    requires Good(o, w) && Reveals(o, w, s, t, mid, far, back, v)
    ensures Good(o, v)
  {
    hide Traded, RowsKept, QuotesKept, Clocked;
    HeadIsRow(o, w);
    RevealKeepsRows(o, w, s, t, mid, far, back, v);
    RevealKeepsTrade(o, w, s, t, mid, far, back, v);
    RevealKeepsClock(o, w, t, mid, far, back, v);
  }

  lemma HeadIsRow(o: Start, w: Walk)
    requires Good(o, w) && w.pending != []
    ensures Matches(w.states, w.pending[0])
  {
  }
}
