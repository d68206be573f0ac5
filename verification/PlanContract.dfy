/** What a plan promises about the shares it trades and about the book it leaves. */
module PlanContract {
  import opened Wrappers
  import opened Numbers
  import opened Liquidity
  import opened ShareQueue
  import opened PlanWalk
  import opened Opening
  import opened Residue
  import opened Resumption
  import Sorting

  datatype Request = Request(side: Side, quantity: int, resting: seq<Row>, external: seq<Quote>,
                             limit: Option<int>, exclude: Option<string>, maxSlices: Option<int>)

  datatype Plan = Plan(requested: nat, filled: nat, remaining: nat, totalCents: nat,
                       restingAfter: seq<Row>, slices: seq<Slice>, truncated: bool)

  function BandOf(req: Request): Band {
    if req.limit.None? then Any
    else if req.side.Buying() then AtMost(req.limit.value)
    else AtLeast(req.limit.value)
  }

  function CapOf(req: Request): int {
    if req.maxSlices.Some? then req.maxSlices.value else DEFAULT_MAX_SLICES
  }

  /** The checks before anything is matched, in the order in which they complain. */
  function Admit(req: Request): Result<Opened, PlanError> {
    if !(1 <= req.quantity <= MAX_REQUESTED_QTY) then Failure(BadQuantity)
    else if !(1 <= CapOf(req) <= MAX_SLICES) then Failure(BadSliceCap)
    else if req.limit.Some? && !IsPrice(req.limit.value) then Failure(BadPrice)
    else OpenBook(req.side.Buying(), req.resting, req.external, req.exclude)
  }

  function Cost<T>(tape: seq<Share<T>>): int {
    if tape == [] then 0 else Cost(tape[..|tape| - 1]) + tape[|tape| - 1].price
  }

  lemma {:induction false} CostOfCopies<T>(tape: seq<Share<T>>, s: Share<T>, n: nat)
    ensures Cost(tape + Copies(s, n)) == Cost(tape) + n * s.price
  {
    var all := tape + Copies(s, n);
    if n == 0 {
      assert all == tape;
    } else {
      assert all[..|all| - 1] == tape + Copies(s, n - 1);
      CostOfCopies(tape, s, n - 1);
      OneMore(n - 1, s.price);
    }
  }

  lemma {:induction false} CostAdds<T>(a: seq<Share<T>>, b: seq<Share<T>>)
    ensures Cost(a + b) == Cost(a) + Cost(b)
  {
    if b == [] {
      assert a + b == a;
    } else {
      assert (a + b)[..|a + b| - 1] == a + b[..|b| - 1];
      CostAdds(a, b[..|b| - 1]);
    }
  }

  /** The shares of the plan are the first shares of the queue, as many as can be had. */
  ghost predicate Serves(req: Request, q: seq<Lot<Id>>, plan: Plan) {
    && plan.requested == req.quantity && plan.filled + plan.remaining == plan.requested
    && TradeTape(plan.slices) == Tape(q, plan.filled)
    && plan.totalCents == Cost(Tape(q, plan.filled)) <= MAX_SAFE
    && plan.filled <= Depth(q, BandOf(req))
  }

  /** Only the slice cap may stop a plan early, and `truncated` says so. */
  ghost predicate StopsRight(req: Request, q: seq<Lot<Id>>, plan: Plan) {
    && |plan.slices| <= CapOf(req)
    && (plan.filled == Lesser(plan.requested, Depth(q, BandOf(req))) || |plan.slices| == CapOf(req))
    && (plan.truncated <==> plan.remaining > 0 && plan.filled < Depth(q, BandOf(req)))
  }

  predicate NamesParty(resting: seq<Row>, external: seq<Quote>, s: Slice) {
    && s.quantity > 0
    && (s.external ==> s.index < |external| && s.order.None?)
    && (!s.external ==>
      && s.index < |resting| && s.order.Some?
      && s.order.value.mark == resting[s.index].mark && s.order.value.account == resting[s.index].account)
  }

  /** Each slice names the row it came from. */
  ghost predicate NamesParties(req: Request, slices: seq<Slice>) {
    forall i :: 0 <= i < |slices| ==> NamesParty(req.resting, req.external, slices[i])
  }

  /** What is left of a row: less by what it traded, and with new stamps only if it showed hidden shares. */
  predicate LeftOf(row: Row, before: Row, traded: int) {
    && before.qty > 0 && row.qty > 0 && 0 <= HiddenOf(row) <= HiddenOf(before)
    && TotalOf(row) == TotalOf(before) - traded
    && row == before.(qty := row.qty, hiddenQty := row.hiddenQty, time := row.time, sequence := row.sequence)
    && (HiddenOf(row) == HiddenOf(before) ==> row == before.(qty := row.qty))
  }

  /** Row for row: what was there is what traded plus what is left, and nothing else moved. */
  ghost predicate Accounts(resting: seq<Row>, tape: seq<Share<Id>>, after: seq<Row>, origins: seq<nat>) {
    && |origins| == |after|
    && (forall i, j :: 0 <= i < j < |origins| ==> origins[i] != origins[j])
    && (forall j :: 0 <= j < |after| ==>
      origins[j] < |resting| && LeftOf(after[j], resting[origins[j]], SharesOf(tape, Resting(origins[j]))))
    && (forall i :: 0 <= i < |resting| && resting[i].qty != 0 && i !in origins ==>
        TotalOf(resting[i]) == SharesOf(tape, Resting(i)))
  }

  ghost predicate LeavesExcluded(resting: seq<Row>, exclude: Option<string>, after: seq<Row>, origins: seq<nat>) {
    |origins| == |after| && forall i :: 0 <= i < |resting| && resting[i].qty != 0 && Excluded(resting[i], exclude) ==>
      exists j :: 0 <= j < |after| && origins[j] == i && after[j] == resting[i]
  }

  /** The visible quantity with which an iceberg comes back. */
  function DisplayOf(row: Row): int { if HasDisplay(row) then row.displayQty.value else row.qty }

  /** `l` is the lot of leftover `row`, which was row `i` and then looked like `before`. */
  predicate IsLotOf(l: Lot<Id>, row: Row, before: Row, i: nat) {
    && l.id == Resting(i) && l.price == row.price && l.qty == row.qty
    && HiddenOf(row) >= 0 && DisplayOf(before) >= 0 && l.refills == Refills(HiddenOf(row), DisplayOf(before))
  }

  ghost predicate InQueue(rest: seq<Lot<Id>>, row: Row, before: Row, i: nat) {
    exists m :: 0 <= m < |rest| && IsLotOf(rest[m], row, before, i)
  }

  ghost predicate LeftOver(l: Lot<Id>, resting: seq<Row>, exclude: Option<string>, after: seq<Row>, origins: seq<nat>) {
    && |origins| == |after|
    && exists j ::
         && 0 <= j < |after| && origins[j] < |resting|
         && IsLotOf(l, after[j], resting[origins[j]], origins[j]) && !Excluded(resting[origins[j]], exclude)
  }

  /** The eligible leftovers are the lots that still queue, with what they show and what they hide. */
  ghost predicate ShowsLots(resting: seq<Row>, exclude: Option<string>, rest: seq<Lot<Id>>, after: seq<Row>,
                            origins: seq<nat>) {
    && |origins| == |after|
    && (forall j :: 0 <= j < |after| ==>
        && origins[j] < |resting|
        && (!Excluded(resting[origins[j]], exclude) ==> InQueue(rest, after[j], resting[origins[j]], origins[j])))
    && (forall m :: 0 <= m < |rest| && rest[m].id.Resting? ==> LeftOver(rest[m], resting, exclude, after, origins))
  }

  /** The book that the next plan opens. */
  function Reopened(req: Request, q: seq<Lot<Id>>, plan: Plan): Result<Opened, PlanError> {
    OpenBook(req.side.Buying(), plan.restingAfter, Reduced(req.external, Tape(q, plan.filled)), req.exclude)
  }

  /** What a caller can check on plan and quotes: read back, no leftover overtakes another, or a quote. */
  ghost predicate KeepsTurns(req: Request, plan: Plan, origins: seq<nat>) {
    InTurn(req.exclude, Reduced(req.external, TradeTape(plan.slices)), plan.restingAfter, origins)
  }

  /**
   The leftovers are always accepted. They line up as the rest of the queue does exactly when they
   kept their turns, and then they are that rest, icebergs without a display size cut anew.
   */
  ghost predicate Resumable(req: Request, q: seq<Lot<Id>>, plan: Plan, origins: seq<nat>) {
    var b := Reopened(req, q, plan);
    && b.Success?
    && var again := Relabel(Name(origins), QueueOf(b.value));
       && (KeepsTurns(req, plan, origins) <==> Owners(again) == Owners(Rest(q, plan.filled)))
       && (KeepsTurns(req, plan, origins) ==> again == RecutAll(req.resting, Rest(q, plan.filled)))
  }

  function SequenceOf(row: Row): real { if row.sequence.Some? then row.sequence.value else 0.0 }

  /** Book order: best price, then clock, then sequence. */
  predicate RowBefore(a: Row, b: Row, up: bool) {
    if a.price != b.price then (if up then a.price < b.price else a.price > b.price)
    else if a.time != b.time then a.time < b.time
    else SequenceOf(a) < SequenceOf(b)
  }

  function RowOrder(up: bool): (Row, Row) -> bool { (a, b) => !RowBefore(b, a, up) }

  predicate Sequenced(rows: seq<Row>) {
    forall i :: 0 <= i < |rows| ==> rows[i].sequence.Some?
  }

  /** The leftovers stand in book order, and no stamp runs ahead of the clocks of the input. */
  ghost predicate KeepsStamps(req: Request, after: seq<Row>) {
    && (forall j :: 0 <= j < |after| ==> after[j].time <= Latest(req.resting, req.external))
    && (Sequenced(req.resting) ==> Sequenced(after) && Sorting.Ordered(RowOrder(req.side.Buying()), after))
  }

  ghost predicate IsPlan(req: Request, plan: Plan, origins: seq<nat>) {
    && Admit(req).Success?
    && var q := QueueOf(Admit(req).value);
       && Serves(req, q, plan) && StopsRight(req, q, plan)
       && NamesParties(req, plan.slices)
       && Accounts(req.resting, Tape(q, plan.filled), plan.restingAfter, origins)
       && LeavesExcluded(req.resting, req.exclude, plan.restingAfter, origins)
       && KeepsStamps(req, plan.restingAfter)
       && ShowsLots(req.resting, req.exclude, Rest(q, plan.filled), plan.restingAfter, origins)
       && Resumable(req, q, plan, origins)
       && (Explicit(req.resting) ==> KeepsTurns(req, plan, origins) && Explicit(plan.restingAfter))
       && (Replannable(req.resting) ==> Replannable(plan.restingAfter))
  }

  /** A surviving row holds what it had, less what it traded. */
  lemma SurvivorHolds(resting: seq<Row>, external: seq<Quote>, exclude: Option<string>, o: Start, w: Walk, k: nat)
    requires Stopped(resting, external, exclude, o, w) && Offers(o.queue, resting, external, exclude)
    requires k < |w.states| && (w.states[k].qty > 0 || w.states[k].hidden > 0) && w.states[k].index < |resting|
    requires Touched(w.states[k], o.states[k], resting[w.states[k].index], exclude)
    ensures var s := w.states[k];
      s.qty + s.hidden == TotalOf(resting[s.index]) - SharesOf(Tape(o.queue, w.filled), Resting(s.index))
  {
    hide Clocked, QuotesKept, RowsKept, Refills, Tape, Rest;
    var s := w.states[k];
    EveryLotIsConserved(o.queue, w.filled, Resting(s.index));
    if s.tradeable {
      SurvivorIsTouched(resting, external, exclude, o, w, k);
      hide Touched;
      var i :| 0 <= i < |w.pending| && !w.pending[i].external && w.pending[i].slot == k;
      assert Matches(w.states, w.pending[i]);
      HeldOnce(w.states, w.pending, i);
      RefillsShowAll(s.hidden, s.display);
    }
  }

  /** How a touched row is written back. */
  lemma TouchedIsWritten(s: State, t: State, row: Row, exclude: Option<string>, traded: int)
    requires Touched(s, t, row, exclude) && s.qty + s.hidden == TotalOf(row) - traded
    ensures row.qty > 0 && s.order == row && s.price == row.price && s.tradeable == !Excluded(row, exclude)
    ensures LeftOf(CopyOrder(s, s.qty, s.hidden), row, traded)
    ensures !s.tradeable ==> CopyOrder(s, s.qty, s.hidden) == row
    ensures row.sequence.Some? ==> CopyOrder(s, s.qty, s.hidden).sequence.Some?
    ensures s.hidden <= HiddenOf(row) && HiddenOf(CopyOrder(s, s.qty, s.hidden)) == s.hidden
  {
  }

  /** The account of one surviving row. */
  lemma SurvivorAccounts(resting: seq<Row>, external: seq<Quote>, exclude: Option<string>, o: Start, w: Walk, k: nat)
    requires Stopped(resting, external, exclude, o, w) && Offers(o.queue, resting, external, exclude)
    requires k < |w.states| && (w.states[k].qty > 0 || w.states[k].hidden > 0)
    ensures var s := w.states[k];
      && s.index < |resting| && resting[s.index].qty > 0 && s.qty > 0
      && s.qty + s.hidden == TotalOf(resting[s.index]) - SharesOf(Tape(o.queue, w.filled), Resting(s.index))
      && s.order == resting[s.index] && s.price == s.order.price
      && LeftOf(CopyOrder(s, s.qty, s.hidden), resting[s.index], SharesOf(Tape(o.queue, w.filled), Resting(s.index)))
      && s.tradeable == !Excluded(resting[s.index], exclude)
      && (!s.tradeable ==> CopyOrder(s, s.qty, s.hidden) == resting[s.index])
      && (resting[s.index].sequence.Some? ==> CopyOrder(s, s.qty, s.hidden).sequence.Some?)
      && s.hidden <= HiddenOf(resting[s.index]) && HiddenOf(CopyOrder(s, s.qty, s.hidden)) == s.hidden
  {
    hide Clocked, QuotesKept, SameRow, Lined, Traded, Touched, LeftOf;
    SurvivorIsTouched(resting, external, exclude, o, w, k);
    SurvivorHolds(resting, external, exclude, o, w, k);
    var s := w.states[k];
    TouchedIsWritten(s, o.states[k], resting[s.index], exclude, SharesOf(Tape(o.queue, w.filled), Resting(s.index)));
    assert s.qty > 0 by { TouchedShows(s, o.states[k], resting[s.index], exclude); }
  }

  lemma TouchedShows(s: State, t: State, row: Row, exclude: Option<string>)
    requires Touched(s, t, row, exclude)
    ensures s.qty > 0
  {
  }

  /** A row that does not survive was traded in full. */
  lemma SpentRowAccounts(resting: seq<Row>, external: seq<Quote>, exclude: Option<string>, o: Start, w: Walk, i: nat)
    requires Stopped(resting, external, exclude, o, w) && Offers(o.queue, resting, external, exclude)
    requires i < |resting|
    requires forall k :: 0 <= k < |w.states| && w.states[k].index == i ==>
      w.states[k].qty == 0 && w.states[k].hidden == 0
    requires exists k :: 0 <= k < |o.states| && o.states[k].index == i
    ensures TotalOf(resting[i]) == SharesOf(Tape(o.queue, w.filled), Resting(i))
  {
    var k :| 0 <= k < |o.states| && o.states[k].index == i;
    assert SameRow(w.states[k], o.states[k]);
    assert ReadRow(resting[i], i, exclude) == Keep(o.states[k]);
    EveryLotIsConserved(o.queue, w.filled, Resting(i));
    forall m | 0 <= m < |w.pending|
      ensures IdOf(w.pending[m].external, w.pending[m].index) != Resting(i)
    {
      assert Matches(w.states, w.pending[m]);
    }
    HeldNever(w.states, w.pending, Resting(i));
  }

  lemma SurvivorAt(resting: seq<Row>, external: seq<Quote>, exclude: Option<string>, o: Start, w: Walk, j: nat)
    returns (k: nat)
    requires Stopped(resting, external, exclude, o, w) && j < |Survivors(w.states, o.up)|
    ensures k < |w.states| && w.states[k] == Survivors(w.states, o.up)[j]
    ensures w.states[k].qty > 0 || w.states[k].hidden > 0
  {
    StatesStayIncreasing(o, w);
    SurvivorFacts(w.states, o.up);
    assert Survivors(w.states, o.up)[j] in Survivors(w.states, o.up);
    k :| 0 <= k < |w.states| && w.states[k] == Survivors(w.states, o.up)[j];
  }

  lemma RowsAreKept(resting: seq<Row>, external: seq<Quote>, exclude: Option<string>, o: Start, w: Walk)
    requires Stopped(resting, external, exclude, o, w)
    ensures RowsKept(o, w.states) && Increasing(o.states)
  {
  }

  lemma LeftoversAccount(resting: seq<Row>, external: seq<Quote>, exclude: Option<string>, o: Start, w: Walk)
    requires Stopped(resting, external, exclude, o, w) && Offers(o.queue, resting, external, exclude)
    requires forall i :: 0 <= i < |resting| && resting[i].qty != 0 ==>
      exists k :: 0 <= k < |o.states| && o.states[k].index == i
    ensures var s := Survivors(w.states, o.up);
      Accounts(resting, Tape(o.queue, w.filled), RestingAfter(s), Origins(s))
  {
    hide Stopped, Offers, Survivors, LeftOf, Tape;
    var s := Survivors(w.states, o.up);
    var after, origins, tape := RestingAfter(s), Origins(s), Tape(o.queue, w.filled);
    assert RowsKept(o, w.states) && Increasing(o.states) by { RowsAreKept(resting, external, exclude, o, w); }
    StatesStayIncreasing(o, w);
    SurvivorFacts(w.states, o.up);
    forall j | 0 <= j < |after|
      ensures origins[j] < |resting| && LeftOf(after[j], resting[origins[j]], SharesOf(tape, Resting(origins[j])))
    {
      var k := SurvivorAt(resting, external, exclude, o, w, j);
      SurvivorAccounts(resting, external, exclude, o, w, k);
    }
    forall i | 0 <= i < |resting| && resting[i].qty != 0 && i !in origins
      ensures TotalOf(resting[i]) == SharesOf(tape, Resting(i))
    {
      forall k | 0 <= k < |w.states| && w.states[k].index == i
        ensures w.states[k].qty == 0 && w.states[k].hidden == 0
      {
        SurvivorIsListed(w, o.up, k);
      }
      SpentRowAccounts(resting, external, exclude, o, w, i);
    }
  }

  lemma SurvivorIsListed(w: Walk, up: bool, k: nat)
    requires Increasing(w.states) && k < |w.states|
    ensures w.states[k].qty > 0 || w.states[k].hidden > 0 ==>
      var s := Survivors(w.states, up);
      exists j :: 0 <= j < |s| && s[j] == w.states[k] && Origins(s)[j] == w.states[k].index
  {
    SurvivorFacts(w.states, up);
    if w.states[k].qty > 0 || w.states[k].hidden > 0 {
      assert w.states[k] in Survivors(w.states, up);
      var j :| 0 <= j < |Survivors(w.states, up)| && Survivors(w.states, up)[j] == w.states[k];
      assert Origins(Survivors(w.states, up))[j] == w.states[k].index;
    }
  }

  lemma ExcludedRowStays(resting: seq<Row>, external: seq<Quote>, exclude: Option<string>, o: Start, w: Walk, k: nat)
    requires Stopped(resting, external, exclude, o, w) && Offers(o.queue, resting, external, exclude)
    requires k < |o.states| && Excluded(resting[o.states[k].index], exclude)
    ensures var s, i := Survivors(w.states, o.up), o.states[k].index;
      exists j :: 0 <= j < |s| && Origins(s)[j] == i && RestingAfter(s)[j] == resting[i]
  {
    var s := Survivors(w.states, o.up);
    assert ReadRow(resting[o.states[k].index], o.states[k].index, exclude) == Keep(o.states[k]);
    assert SameRow(w.states[k], o.states[k]);
    StatesStayIncreasing(o, w);
    SurvivorAccounts(resting, external, exclude, o, w, k);
    SurvivorIsListed(w, o.up, k);
    var j :| 0 <= j < |s| && s[j] == w.states[k];
    assert Origins(s)[j] == o.states[k].index;
  }

  lemma LeftoversKeepExcluded(resting: seq<Row>, external: seq<Quote>, exclude: Option<string>, o: Start, w: Walk)
    requires Stopped(resting, external, exclude, o, w) && Offers(o.queue, resting, external, exclude)
    requires forall i :: 0 <= i < |resting| && resting[i].qty != 0 ==>
      exists k :: 0 <= k < |o.states| && o.states[k].index == i
    ensures var s := Survivors(w.states, o.up);
      LeavesExcluded(resting, exclude, RestingAfter(s), Origins(s))
  {
    forall i | 0 <= i < |resting| && resting[i].qty != 0 && Excluded(resting[i], exclude)
      ensures var s := Survivors(w.states, o.up);
        exists j :: 0 <= j < |s| && Origins(s)[j] == i && RestingAfter(s)[j] == resting[i]
    {
      var k :| 0 <= k < |o.states| && o.states[k].index == i;
      ExcludedRowStays(resting, external, exclude, o, w, k);
    }
  }

  /** A queued row stands in the queue as what it shows and hides. */
  lemma SurvivorIsQueued(resting: seq<Row>, external: seq<Quote>, exclude: Option<string>, o: Start, w: Walk, k: nat)
    requires Stopped(resting, external, exclude, o, w) && Offers(o.queue, resting, external, exclude)
    requires k < |w.states| && w.states[k].tradeable && (w.states[k].qty > 0 || w.states[k].hidden > 0)
    ensures var s := w.states[k];
      s.index < |resting| && InQueue(Rest(o.queue, w.filled), CopyOrder(s, s.qty, s.hidden), resting[s.index], s.index)
  {
    SurvivorAccounts(resting, external, exclude, o, w, k);
    SurvivorIsTouched(resting, external, exclude, o, w, k);
    var s := w.states[k];
    TouchedDisplay(s, o.states[k], resting[s.index], exclude, 0);
    var i :| 0 <= i < |w.pending| && !w.pending[i].external && w.pending[i].slot == k;
    assert Matches(w.states, w.pending[i]);
    assert IsLotOf(LotsOf(w.states, w.pending)[i], CopyOrder(s, s.qty, s.hidden), resting[s.index], s.index);
  }

  /** And every queued row is left over. */
  lemma QueuedIsSurvivor(resting: seq<Row>, external: seq<Quote>, exclude: Option<string>, o: Start, w: Walk, m: nat)
    requires Stopped(resting, external, exclude, o, w) && Offers(o.queue, resting, external, exclude)
    requires m < |w.pending| && !w.pending[m].external
    ensures var s := Survivors(w.states, o.up);
      LeftOver(Rest(o.queue, w.filled)[m], resting, exclude, RestingAfter(s), Origins(s))
  {
    var p, s := w.pending[m], Survivors(w.states, o.up);
    assert Matches(w.states, p);
    StatesStayIncreasing(o, w);
    SurvivorAccounts(resting, external, exclude, o, w, p.slot);
    SurvivorIsTouched(resting, external, exclude, o, w, p.slot);
    SurvivorIsListed(w, o.up, p.slot);
    var j :| 0 <= j < |s| && s[j] == w.states[p.slot] && Origins(s)[j] == w.states[p.slot].index;
    TouchedDisplay(s[j], o.states[p.slot], resting[s[j].index], exclude, 0);
    assert IsLotOf(LotsOf(w.states, w.pending)[m], RestingAfter(s)[j], resting[Origins(s)[j]], Origins(s)[j]);
  }

  lemma LeftoversShowLots(resting: seq<Row>, external: seq<Quote>, exclude: Option<string>, o: Start, w: Walk)
    requires Stopped(resting, external, exclude, o, w) && Offers(o.queue, resting, external, exclude)
    ensures var s := Survivors(w.states, o.up);
      ShowsLots(resting, exclude, Rest(o.queue, w.filled), RestingAfter(s), Origins(s))
  {
    hide Survivors, InQueue, LeftOver, Lined, RowsKept, Clocked;
    var s, rest := Survivors(w.states, o.up), Rest(o.queue, w.filled);
    forall j | 0 <= j < |s|
      ensures Origins(s)[j] < |resting|
      ensures !Excluded(resting[Origins(s)[j]], exclude) ==>
        InQueue(rest, RestingAfter(s)[j], resting[Origins(s)[j]], Origins(s)[j])
    {
      var k := SurvivorAt(resting, external, exclude, o, w, j);
      SurvivorAccounts(resting, external, exclude, o, w, k);
      if s[j].tradeable { SurvivorIsQueued(resting, external, exclude, o, w, k); }
    }
    forall m | 0 <= m < |rest| && rest[m].id.Resting?
      ensures LeftOver(rest[m], resting, exclude, RestingAfter(s), Origins(s))
    {
      QueuedIsSurvivor(resting, external, exclude, o, w, m);
    }
  }

  lemma LeftoversStayExplicit(resting: seq<Row>, external: seq<Quote>, exclude: Option<string>, o: Start, w: Walk)
    requires Stopped(resting, external, exclude, o, w) && Offers(o.queue, resting, external, exclude)
    requires Explicit(resting)
    ensures Explicit(RestingAfter(Survivors(w.states, o.up)))
  {
    var s := Survivors(w.states, o.up);
    forall j | 0 <= j < |s|
      ensures RestingAfter(s)[j].sequence.Some?
    {
      var k := SurvivorAt(resting, external, exclude, o, w, j);
      SurvivorAccounts(resting, external, exclude, o, w, k);
    }
  }

  lemma LeftoversStayReplannable(resting: seq<Row>, external: seq<Quote>, exclude: Option<string>, o: Start, w: Walk)
    requires Stopped(resting, external, exclude, o, w) && Offers(o.queue, resting, external, exclude)
    requires Replannable(resting)
    ensures Replannable(RestingAfter(Survivors(w.states, o.up)))
  {
    var s := Survivors(w.states, o.up);
    forall j | 0 <= j < |s|
      ensures RestingAfter(s)[j].sequence.Some?
      ensures HiddenOf(RestingAfter(s)[j]) > 0 ==> HasDisplay(RestingAfter(s)[j])
    {
      var k := SurvivorAt(resting, external, exclude, o, w, j);
      SurvivorAccounts(resting, external, exclude, o, w, k);
    }
  }

  lemma LeftoversKeepStamps(req: Request, o: Start, w: Walk)
    requires Stopped(req.resting, req.external, req.exclude, o, w) && o.up == req.side.Buying()
    requires o.latest == Latest(req.resting, req.external)
    ensures KeepsStamps(req, RestingAfter(Survivors(w.states, o.up)))
  {
    hide Good, Survivors, Latest;
    var s := Survivors(w.states, o.up);
    var after := RestingAfter(s);
    forall j | 0 <= j < |after|
      ensures after[j].time <= o.latest
    {
      SurvivorClock(req.resting, req.external, req.exclude, o, w, j);
    }
    if Sequenced(req.resting) {
      forall i | 0 <= i < |after|
        ensures after[i].sequence.Some?
      {
        SurvivorStamps(req.resting, req.external, req.exclude, o, w, i);
      }
      StatesStaySorted(req.resting, req.external, req.exclude, o, w);
      forall i, j | 0 <= i < j < |after|
        ensures !RowBefore(after[j], after[i], o.up)
      {
        SurvivorStamps(req.resting, req.external, req.exclude, o, w, i);
        SurvivorStamps(req.resting, req.external, req.exclude, o, w, j);
        assert SurvivorOrder(o.up)(s[i], s[j]);
      }
    }
  }

  lemma StatesStaySorted(resting: seq<Row>, external: seq<Quote>, exclude: Option<string>, o: Start, w: Walk)
    requires Stopped(resting, external, exclude, o, w)
    ensures Sorting.Strict(SurvivorOrder(o.up), Survivors(w.states, o.up)) && Increasing(w.states)
  {
    StatesStayIncreasing(o, w);
    SurvivorFacts(w.states, o.up);
  }

  lemma SurvivorClock(resting: seq<Row>, external: seq<Quote>, exclude: Option<string>, o: Start, w: Walk, j: nat)
    requires Stopped(resting, external, exclude, o, w) && j < |Survivors(w.states, o.up)|
    ensures RestingAfter(Survivors(w.states, o.up))[j].time <= o.latest
  {
    var k := SurvivorAt(resting, external, exclude, o, w, j);
    SurvivorIsTouched(resting, external, exclude, o, w, k);
    assert w.states[k].time <= o.latest;
  }

  /** A surviving row carries its state's price and stamps. */
  lemma SurvivorStamps(resting: seq<Row>, external: seq<Quote>, exclude: Option<string>, o: Start, w: Walk, j: nat)
    requires Stopped(resting, external, exclude, o, w) && Sequenced(resting) && j < |Survivors(w.states, o.up)|
    ensures var s := Survivors(w.states, o.up)[j];
      var row := CopyOrder(s, s.qty, s.hidden);
      row.price == s.price && row.time == s.time && row.sequence == Some(s.sequence)
  {
    var k := SurvivorAt(resting, external, exclude, o, w, j);
    SurvivorIsTouched(resting, external, exclude, o, w, k);
  }
}
