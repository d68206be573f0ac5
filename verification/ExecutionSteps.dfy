/** How an execution is carried out on a desk: the planner is asked, and both books give up what it took. */
module ExecutionSteps {
  import opened Wrappers
  import opened Liquidity
  import opened ShareQueue
  import opened PlanWalk
  import opened Opening
  import opened Residue
  import opened PlanContract
  import opened QuoteBook
  import opened StampBlind
  import opened Reservations
  import Sorting

  /** The computed levels after the external slices took their shares. */
  function AfterSlices(quotes: seq<Quote>, slices: seq<Slice>): (r: seq<Quote>)
    ensures |r| == |quotes|
    ensures forall i :: 0 <= i < |r| ==> r[i] == quotes[i].(size := r[i].size)
  {
    if slices == [] then quotes
    else
      var before, last := AfterSlices(quotes, slices[..|slices| - 1]), slices[|slices| - 1];
      if last.external && last.index < |before|
      then before[last.index := before[last.index].(size := before[last.index].size - last.quantity)]
      else before
  }

  function Stocked(quotes: seq<Quote>): seq<Quote> {
    if quotes == [] then [] else (if quotes[0].size > 0 then [quotes[0]] else []) + Stocked(quotes[1..])
  }

  function WithSide(b: Book, buying: bool, after: seq<Row>): Book {
    if buying then b.(asks := after) else b.(bids := after)
  }

  function Opposite(b: Book, buying: bool): seq<Row> { if buying then b.asks else b.bids }

  function Ladder(l: Levels, buying: bool): seq<Quote> { if buying then l.asks else l.bids }

  /** What the planner is asked about a desk. */
  function Ask(d: Desk, side: Side, quantity: int, limit: Option<int>, exclude: Option<string>,
               external: bool): Request {
    Request(side, quantity, if d.resting.Some? then Opposite(d.resting.value, side.Buying()) else [],
            if external && d.synthetic.Some? then Ladder(d.synthetic.value, side.Buying())
            else [], limit, exclude, None)
  }

  /** The desk after a plan is carried out. */
  function Executed(d: Desk, buying: bool, plan: Plan, external: bool): Desk {
    Desk(if d.resting.Some? then Some(WithSide(d.resting.value, buying, plan.restingAfter)) else None,
         if external && d.synthetic.Some? then
           var l := d.synthetic.value;
           var left := Stocked(AfterSlices(Ladder(l, buying), plan.slices));
           Some(if buying then l.(asks := left) else l.(bids := left))
         else d.synthetic)
  }

  /** The reports that a plan's fills of virtual orders cause, in order. */
  function HooksOf(symbol: string, slices: seq<Slice>): seq<Hook> {
    if slices == [] then []
    else
      var s := slices[|slices| - 1];
      HooksOf(symbol, slices[..|slices| - 1]) +
      if !s.external && s.order.Some? && s.order.value.mark.virtual then
        var m := s.order.value.mark;
        [Hook(m.mmId, m.tag, m.orderId, symbol, m.side, s.quantity, s.price)]
      else []
  }

  lemma {:induction false} CountsAdd(a: seq<Share<Id>>, b: seq<Share<Id>>, id: Id)
    ensures SharesOf(a + b, id) == SharesOf(a, id) + SharesOf(b, id)
  {
    if a == [] {
      assert a + b == b;
    } else {
      assert (a + b)[1..] == a[1..] + b;
      CountsAdd(a[1..], b, id);
    }
  }

  lemma {:induction false} CopiesCount(tape: seq<Share<Id>>, s: Share<Id>, n: nat, id: Id)
    ensures SharesOf(tape + Copies(s, n), id) == SharesOf(tape, id) + if s.id == id then n else 0
  {
    CountsAdd(tape, Copies(s, n), id);
    if n > 0 {
      assert Copies(s, n) == [s] + Copies(s, n - 1) && Copies(s, n)[1..] == Copies(s, n - 1);
      CopiesCount(tape, s, n - 1, id);
      CountsAdd(tape, Copies(s, n - 1), id);
    }
  }

  /** Each computed level loses exactly the shares that traded from it. */
  lemma {:induction false} LevelsAreCharged(quotes: seq<Quote>, slices: seq<Slice>, i: nat)
    requires i < |quotes| && forall k :: 0 <= k < |slices| && slices[k].external ==> slices[k].index < |quotes|
    ensures AfterSlices(quotes, slices)[i].size == quotes[i].size - SharesOf(TradeTape(slices), Quoted(i))
  {
    if slices != [] {
      var n := |slices| - 1;
      LevelsAreCharged(quotes, slices[..n], i);
      CopiesCount(TradeTape(slices[..n]), Share(IdOf(slices[n].external, slices[n].index), slices[n].price),
                  slices[n].quantity, Quoted(i));
    }
  }

  /** So the ladder that is left is what a continued plan would be given, but for its empty levels. */
  lemma LadderIsReduced(req: Request, plan: Plan, origins: seq<nat>)
    requires IsPlan(req, plan, origins)
    ensures AfterSlices(req.external, plan.slices)
      == Reduced(req.external, Tape(QueueOf(Admit(req).value), plan.filled))
  {
    hide Admit, Tape, TradeTape, Resumable, ShowsLots, Explicit, Reopened, Accounts, LeavesExcluded, KeepsStamps,
         StopsRight, Replannable;
    var tape := Tape(QueueOf(Admit(req).value), plan.filled);
    assert TradeTape(plan.slices) == tape;
    forall i | 0 <= i < |req.external|
      ensures AfterSlices(req.external, plan.slices)[i] == Reduced(req.external, tape)[i]
    {
      assert forall k :: 0 <= k < |plan.slices| && plan.slices[k].external ==>
        NamesParty(req.resting, req.external, plan.slices[k]);
      LevelsAreCharged(req.external, plan.slices, i);
    }
  }

  lemma {:induction false} StockedIsClocked(quotes: seq<Quote>, now: real)
    requires ClockedQuotes(quotes, now)
    ensures ClockedQuotes(Stocked(quotes), now) && forall x :: x in Stocked(quotes) ==> x in quotes
  {
    if quotes != [] {
      assert forall i :: 0 <= i < |quotes[1..]| ==> quotes[1..][i] == quotes[i + 1];
      StockedIsClocked(quotes[1..], now);
    }
  }

  function Highest(rows: seq<Row>, floor: real): real {
    if rows == [] then floor
    else
      var below := Highest(rows[..|rows| - 1], floor);
      if SequenceOf(rows[|rows| - 1]) > below then SequenceOf(rows[|rows| - 1]) else below
  }

  lemma {:induction false} HighestBounds(rows: seq<Row>, floor: real)
    ensures Highest(rows, floor) >= floor
    ensures forall i :: 0 <= i < |rows| ==> SequenceOf(rows[i]) <= Highest(rows, floor)
  {
    if rows != [] {
      HighestBounds(rows[..|rows| - 1], floor);
      assert forall i :: 0 <= i < |rows| - 1 ==> rows[i] == rows[..|rows| - 1][i];
    }
  }

  lemma AskIsClocked(d: Desk, req: Request, external: bool, now: real, counter: real)
    requires StampedDesk(d, now, counter) && now >= 0.0
    requires req == Ask(d, req.side, req.quantity, req.limit, req.exclude, external)
    ensures Latest(req.resting, req.external) <= now && Sequenced(req.resting)
  {
    LatestIsLeast(req.resting, req.external, now);
  }

  /** The planner's leftovers are stamped well enough to stay in the book. */
  lemma LeftoversAreStamped(req: Request, plan: Plan, origins: seq<nat>, now: real, counter: real)
    requires IsPlan(req, plan, origins) && Latest(req.resting, req.external) <= now && Sequenced(req.resting)
    ensures StampedRows(plan.restingAfter, req.side.Buying(), now, Highest(plan.restingAfter, counter))
  {
    hide Admit, Tape, TradeTape, Resumable, ShowsLots, Explicit, Reopened, Accounts, LeavesExcluded, StopsRight,
         Replannable, Serves, NamesParties, Latest, Sorting.Ordered;
    HighestBounds(plan.restingAfter, counter);
  }

  lemma ExecutedIsStamped(d: Desk, side: Side, quantity: int, limit: Option<int>, exclude: Option<string>,
                          external: bool,
                          plan: Plan, origins: seq<nat>, now: real, counter: real)
    requires StampedDesk(d, now, counter) && now >= 0.0
    requires IsPlan(Ask(d, side, quantity, limit, exclude, external), plan, origins)
    ensures StampedDesk(Executed(d, side.Buying(), plan, external), now, Highest(plan.restingAfter, counter))
    ensures Highest(plan.restingAfter, counter) >= counter
  {
    hide IsPlan, StampedRows, ClockedQuotes, AfterSlices, Stocked, Sequenced;
    var req := Ask(d, side, quantity, limit, exclude, external);
    AskIsClocked(d, req, external, now, counter);
    LeftoversAreStamped(req, plan, origins, now, counter);
    HighestBounds(plan.restingAfter, counter);
    ClocksAdvance(d, now, counter, now, Highest(plan.restingAfter, counter));
    if external && d.synthetic.Some? {
      SlicedIsClocked(req.external, plan.slices, now);
    }
  }

  lemma SlicedIsClocked(quotes: seq<Quote>, slices: seq<Slice>, now: real)
    requires ClockedQuotes(quotes, now)
    ensures ClockedQuotes(Stocked(AfterSlices(quotes, slices)), now)
  {
    StockedIsClocked(AfterSlices(quotes, slices), now);
  }

  method ChargeLevels(quotes: seq<Quote>, slices: seq<Slice>) returns (left: seq<Quote>)
    requires forall k :: 0 <= k < |slices| && slices[k].external ==> slices[k].index < |quotes|
    ensures left == Stocked(AfterSlices(quotes, slices))
  {
    var charged := quotes;
    for k := 0 to |slices|
      invariant charged == AfterSlices(quotes, slices[..k])
    {
      assert slices[..k + 1][..k] == slices[..k];
      var s := slices[k];
      if s.external { charged := charged[s.index := charged[s.index].(size := charged[s.index].size - s.quantity)]; }
    }
    assert slices[..|slices|] == slices;
    left := Stocked(charged);
  }

  method CollectHooks(symbol: string, slices: seq<Slice>) returns (hooks: seq<Hook>)
    requires forall k :: 0 <= k < |slices| && !slices[k].external ==> slices[k].order.Some?
    ensures hooks == HooksOf(symbol, slices)
  {
    hooks := [];
    for k := 0 to |slices|
      invariant hooks == HooksOf(symbol, slices[..k])
    {
      assert slices[..k + 1][..k] == slices[..k];
      var s := slices[k];
      if !s.external && s.order.value.mark.virtual {
        var m := s.order.value.mark;
        hooks := hooks + [Hook(m.mmId, m.tag, m.orderId, symbol, m.side, s.quantity, s.price)];
      }
    }
    assert slices[..|slices|] == slices;
  }

  method HighestSequence(rows: seq<Row>, floor: real) returns (highest: real)
    ensures highest == Highest(rows, floor)
  {
    highest := floor;
    for k := 0 to |rows|
      invariant highest == Highest(rows[..k], floor)
    {
      assert rows[..k + 1][..k] == rows[..k];
      if SequenceOf(rows[k]) > highest { highest := SequenceOf(rows[k]); }
    }
    assert rows[..|rows|] == rows;
  }

  lemma PlanNamesParties(req: Request, plan: Plan, origins: seq<nat>)
    requires IsPlan(req, plan, origins)
    ensures forall k :: 0 <= k < |plan.slices| && plan.slices[k].external ==> plan.slices[k].index < |req.external|
    ensures forall k :: 0 <= k < |plan.slices| && !plan.slices[k].external ==> plan.slices[k].order.Some?
  {
    hide Admit, Tape, TradeTape, Resumable, ShowsLots, Explicit, Reopened, Accounts, LeavesExcluded, StopsRight,
         Replannable, Serves, KeepsStamps;
    assert forall k :: 0 <= k < |plan.slices| ==> NamesParty(req.resting, req.external, plan.slices[k]);
  }

  /** Carries a plan out on a desk. */
  method CarryOut(d: Desk, req: Request, external: bool, plan: Plan, ghost origins: seq<nat>) returns (after: Desk)
    requires IsPlan(req, plan, origins) && req == Ask(d, req.side, req.quantity, req.limit, req.exclude, external)
    ensures after == Executed(d, req.side.Buying(), plan, external)
  {
    hide IsPlan, AfterSlices, Stocked;
    PlanNamesParties(req, plan, origins);
    var buying := req.side.Buying();
    after := d;
    if d.resting.Some? { after := after.(resting := Some(WithSide(d.resting.value, buying, plan.restingAfter))); }
    if external && d.synthetic.Some? {
      var l := d.synthetic.value;
      var left := ChargeLevels(Ladder(l, buying), plan.slices);
      after := after.(synthetic := Some(if buying then l.(asks := left) else l.(bids := left)));
    }
  }
}
