/**
 Planning composes. A plan followed by a plan on its leftovers trades the same shares, row by row and
 in the same order, as one plan for the total, whatever caps and quantities are used, provided that the
 leftovers queue as before. They do so exactly when they keep their turns and last.
 */
module Composition {
  import opened Wrappers
  import opened Numbers
  import opened Liquidity
  import opened ShareQueue
  import opened PlanWalk
  import opened Opening
  import opened Residue
  import opened Resumption
  import opened PlanContract

  /** The request that carries on where `plan` stopped. */
  ghost predicate Continues(next: Request, req: Request, plan: Plan) {
    && next.side == req.side && next.limit == req.limit && next.exclude == req.exclude
    && next.resting == plan.restingAfter
    && next.external == Reduced(req.external, TradeTape(plan.slices))
  }

  lemma QueueIsPriceOrdered(req: Request, book: Opened)
    requires Admit(req) == Success(book)
    ensures PriceOrdered(QueueOf(book), req.side.Buying()) && AllLive(QueueOf(book))
  {
    var up := req.side.Buying();
    OpenedItems(up, req.resting, req.external, req.exclude);
    OpenedOffers(up, req.resting, req.external, req.exclude);
    var q := QueueOf(book);
    forall i, j | 0 <= i < j < |q|
      ensures if up then q[i].price <= q[j].price else q[i].price >= q[j].price
    {
      assert ItemOrder(up)(book.items[i], book.items[j]);
    }
  }

  predicate Follows(band: Band, up: bool) { band.Any? || (if up then band.AtMost? else band.AtLeast?) }

  lemma {:induction false} NoDepthBehindRefusal<T>(q: seq<Lot<T>>, band: Band, up: bool)
    requires PriceOrdered(q, up) && Follows(band, up) && q != [] && !band.Allows(q[0].price)
    ensures Depth(q, band) == 0
  {
    if |q| > 1 {
      assert if up then q[0].price <= q[1].price else q[0].price >= q[1].price;
      NoDepthBehindRefusal(q[1..], band, up);
    }
  }

  /** Filling within the eligible depth touches eligible prices only, and uses that depth up share by share. */
  lemma {:induction false} FillsWithinBand<T>(q: seq<Lot<T>>, n: nat, band: Band, up: bool)
    requires PriceOrdered(q, up) && AllLive(q) && Follows(band, up) && n <= Depth(q, band)
    ensures Depth(Rest(q, n), band) == Depth(q, band) - n
    ensures |Tape(q, n)| == n && forall i :: 0 <= i < n ==> band.Allows(Tape(q, n)[i].price)
    decreases n
  {
    if n > 0 {
      if !band.Allows(q[0].price) {
        NoDepthBehindRefusal(q, band, up);
      } else {
        assert Live(q[0]);
        TakeUsesDepth(q, 1, band);
        TakeKeepsOrder(q, up);
        FillsWithinBand(AfterTake(q, 1), n - 1, band, up);
      }
    }
  }

  lemma {:induction false} NamesKeepDepth<T, U>(name: T -> U, q: seq<Lot<T>>, band: Band)
    ensures Depth(Relabel(name, q), band) == Depth(q, band)
  {
    if q != [] {
      assert Relabel(name, q)[1..] == Relabel(name, q[1..]);
      NamesKeepDepth(name, q[1..], band);
    }
  }

  /** Every share of a plan is inside the limit, and prices only get worse along the walk. */
  lemma PlanRespectsLimit(req: Request, plan: Plan, origins: seq<nat>)
    requires IsPlan(req, plan, origins)
    ensures var tape := TradeTape(plan.slices);
      && |tape| == plan.filled
      && (forall i :: 0 <= i < |tape| ==> BandOf(req).Allows(tape[i].price))
      && (forall i, j :: 0 <= i < j < |tape| ==> NoBetter(tape[j].price, tape[i].price, req.side.Buying()))
  {
    hide OpenBook, NamesParties, Accounts, LeavesExcluded, Resumable, Replannable;
    var book := Admit(req).value;
    QueueIsPriceOrdered(req, book);
    FillsWithinBand(QueueOf(book), plan.filled, BandOf(req), req.side.Buying());
    TapeIsMonotone(QueueOf(book), plan.filled, req.side.Buying());
  }

  /** The trading half of the plan contract. */
  lemma PlanServes(req: Request, plan: Plan, origins: seq<nat>)
    requires IsPlan(req, plan, origins)
    ensures Admit(req).Success?
    ensures var q := QueueOf(Admit(req).value);
      && TradeTape(plan.slices) == Tape(q, plan.filled)
      && plan.totalCents == Cost(Tape(q, plan.filled)) && plan.filled <= Depth(q, BandOf(req))
      && Depth(Rest(q, plan.filled), BandOf(req)) == Depth(q, BandOf(req)) - plan.filled
  {
    hide NamesParties, Accounts, LeavesExcluded, Resumable, Replannable, StopsRight, QueueOf;
    QueueIsPriceOrdered(req, Admit(req).value);
    FillsWithinBand(QueueOf(Admit(req).value), plan.filled, BandOf(req), req.side.Buying());
  }

  /** The leftovers are always admitted again, whatever their rows leave to defaults. */
  lemma LeftoversAreAdmitted(req: Request, plan: Plan, origins: seq<nat>, next: Request)
    requires IsPlan(req, plan, origins) && Continues(next, req, plan)
    requires 1 <= next.quantity <= MAX_REQUESTED_QTY && 1 <= CapOf(next) <= MAX_SLICES
    ensures Admit(next).Success?
  {
    hide NamesParties, Accounts, LeavesExcluded, StopsRight, OpenBook, Replannable, Explicit, KeepsTurns, ShowsLots,
         QueueOf, RecutAll, Owners;
  }

  lemma PlanReopens(req: Request, plan: Plan, origins: seq<nat>, next: Request)
    requires IsPlan(req, plan, origins) && Continues(next, req, plan) && Admit(next).Success?
    ensures BandOf(next) == BandOf(req)
    ensures KeepsTurns(req, plan, origins) ==>
      Relabel(Name(origins), QueueOf(Admit(next).value))
        == RecutAll(req.resting, Rest(QueueOf(Admit(req).value), plan.filled))
  {
    hide NamesParties, Accounts, LeavesExcluded, StopsRight, OpenBook, Replannable, Explicit, ShowsLots, QueueOf;
  }

  /**
   Whether a leftover refills as before when it is read back: it has a display size, or hides
   nothing, or shows as much as at first, or needs but one refill either way.
   */
  predicate Lasts(row: Row, before: Row) {
    || HasDisplay(before) || HiddenOf(row) == 0 || row.qty == before.qty
    || (HiddenOf(row) <= row.qty && HiddenOf(row) <= before.qty)
  }

  /** What a caller can check on request and plan before going on from the leftovers. */
  ghost predicate AllLast(req: Request, plan: Plan, origins: seq<nat>) {
    |origins| == |plan.restingAfter| && forall j :: 0 <= j < |origins| ==>
      && origins[j] < |req.resting|
      && (!Excluded(req.resting[origins[j]], req.exclude) ==> Lasts(plan.restingAfter[j], req.resting[origins[j]]))
  }

  /** Refilling by `d` and by `e` shares agree exactly when one refill suffices or the sizes are equal. */
  lemma RefillsAgree(hidden: nat, d: nat, e: nat)
    requires d > 0 && e > 0
    ensures Refills(hidden, d) == Refills(hidden, e) <==> d == e || (hidden <= d && hidden <= e)
  {
    if hidden > 0 {
      assert Refills(hidden, d)[0] == Lesser(d, hidden);
      assert Refills(hidden, e)[0] == Lesser(e, hidden);
    }
  }

  /** Cutting a leftover's lot anew changes nothing exactly when the leftover lasts. */
  lemma RecutLot(resting: seq<Row>, l: Lot<Id>, row: Row, i: nat)
    requires i < |resting| && IsLotOf(l, row, resting[i], i) && row.qty > 0 && resting[i].qty > 0
    ensures Recut(resting, l) == l <==> Lasts(row, resting[i])
  {
    hide Refills;
    var hidden, display := HiddenOf(row), DisplayOf(resting[i]);
    assert display > 0;
    RefillsShowAll(hidden, display);
    RefillsAgree(hidden, l.qty, display);
    NothingToRefill(display);
    NothingToRefill(l.qty);
    RefillsAgree(hidden, display, l.qty);
  }

  /**
   When a plan can be resumed: the reopened queue is the interrupted one if and only if all
   leftovers keep their turns and last.
   */
  lemma ResumesExactlyWhen(req: Request, plan: Plan, origins: seq<nat>)
    requires IsPlan(req, plan, origins)
    ensures var q := QueueOf(Admit(req).value);
      && Reopened(req, q, plan).Success?
      && (Relabel(Name(origins), QueueOf(Reopened(req, q, plan).value)) == Rest(q, plan.filled) <==>
            KeepsTurns(req, plan, origins) && AllLast(req, plan, origins))
  {
    hide Serves, StopsRight, NamesParties, LeavesExcluded, KeepsStamps, OpenBook, Replannable, Explicit, QueueOf, Lasts,
         IsLotOf, Recut, ShowsLots, Admit, KeepsTurns;
    var q := QueueOf(Admit(req).value);
    var rest := Rest(q, plan.filled);
    RecutsExactlyWhen(req.resting, req.exclude, Tape(q, plan.filled), rest, plan.restingAfter, origins);
    assert RecutAll(req.resting, rest) == rest <==>
      forall m :: 0 <= m < |rest| ==> Recut(req.resting, rest[m]) == rest[m];
  }

  lemma RecutsExactlyWhen(resting: seq<Row>, exclude: Option<string>, tape: seq<Share<Id>>, rest: seq<Lot<Id>>,
                          after: seq<Row>, origins: seq<nat>)
    requires Accounts(resting, tape, after, origins) && ShowsLots(resting, exclude, rest, after, origins)
    ensures (forall m :: 0 <= m < |rest| ==> Recut(resting, rest[m]) == rest[m]) <==>
      forall j :: 0 <= j < |after| && !Excluded(resting[origins[j]], exclude) ==> Lasts(after[j], resting[origins[j]])
  {
    hide Refills, Lasts, IsLotOf, Recut;
    forall m | 0 <= m < |rest| && rest[m].id.Quoted?
      ensures Recut(resting, rest[m]) == rest[m]
    {
      QuotesStayWhole(resting, rest[m]);
    }
    forall m, j | 0 <= m < |rest| && 0 <= j < |after| && IsLotOf(rest[m], after[j], resting[origins[j]], origins[j])
      ensures Recut(resting, rest[m]) == rest[m] <==> Lasts(after[j], resting[origins[j]])
    {
      RecutLot(resting, rest[m], after[j], origins[j]);
    }
  }

  lemma QuotesStayWhole(resting: seq<Row>, l: Lot<Id>)
    ensures l.id.Quoted? ==> Recut(resting, l) == l
  {
  }

  /** Rows with sequence numbers of their own keep their turns. */
  lemma ExplicitKeepsTurns(req: Request, plan: Plan, origins: seq<nat>)
    requires IsPlan(req, plan, origins) && Explicit(req.resting)
    ensures KeepsTurns(req, plan, origins)
  {
    hide Serves, StopsRight, NamesParties, Accounts, LeavesExcluded, KeepsStamps, OpenBook, QueueOf, ShowsLots, Admit,
         Resumable, Replannable;
  }

  /** Rows that all have a sequence number and a display size keep their turns and last. */
  lemma ReplannableLasts(req: Request, plan: Plan, origins: seq<nat>)
    requires IsPlan(req, plan, origins) && Replannable(req.resting)
    ensures KeepsTurns(req, plan, origins) && AllLast(req, plan, origins)
  {
    hide Serves, StopsRight, NamesParties, LeavesExcluded, KeepsStamps, OpenBook, QueueOf, ShowsLots, Admit, Resumable,
         Reopened;
  }

  lemma PlanResumes(req: Request, plan: Plan, origins: seq<nat>, next: Request)
    requires IsPlan(req, plan, origins) && KeepsTurns(req, plan, origins) && AllLast(req, plan, origins)
    requires Continues(next, req, plan) && Admit(next).Success?
    ensures BandOf(next) == BandOf(req)
    ensures Relabel(Name(origins), QueueOf(Admit(next).value)) == Rest(QueueOf(Admit(req).value), plan.filled)
  {
    hide NamesParties, Accounts, LeavesExcluded, StopsRight, OpenBook, Replannable, Explicit, ShowsLots, QueueOf,
         AllLast;
    ResumesExactlyWhen(req, plan, origins);
    assert Admit(next).value == Reopened(req, QueueOf(Admit(req).value), plan).value;
  }

  /** The continued plan's shares, under the first book's names, are the next shares of the first queue. */
  lemma ContinuationServesTheRest(req: Request, plan: Plan, origins: seq<nat>, next: Request, plan2: Plan,
                                  origins2: seq<nat>)
    requires IsPlan(req, plan, origins) && KeepsTurns(req, plan, origins) && AllLast(req, plan, origins)
    requires IsPlan(next, plan2, origins2) && Continues(next, req, plan)
    ensures Admit(req).Success? && Admit(next).Success?
    ensures var q := QueueOf(Admit(req).value);
      && TradeTape(plan.slices) + RelabelTape(Name(origins), TradeTape(plan2.slices))
         == Tape(q, plan.filled + plan2.filled)
      && plan.totalCents + plan2.totalCents == Cost(Tape(q, plan.filled + plan2.filled))
      && Relabel(Name(origins), Rest(QueueOf(Admit(next).value), plan2.filled)) == Rest(q, plan.filled + plan2.filled)
      && Depth(QueueOf(Admit(next).value), BandOf(next)) == Depth(q, BandOf(req)) - plan.filled
  {
    hide *;
    PlanServes(req, plan, origins);
    PlanServes(next, plan2, origins2);
    PlanResumes(req, plan, origins, next);
    var q, q2, name := QueueOf(Admit(req).value), QueueOf(Admit(next).value), Name(origins);
    ServingComposes(q, plan.filled, plan2.filled);
    ServingIgnoresNames(name, q2, plan2.filled);
    NamesKeepDepth(name, q2, BandOf(req));
    CostAdds(Tape(q, plan.filled), Tape(Rest(q, plan.filled), plan2.filled));
    NamesKeepCost(name, Tape(q2, plan2.filled));
  }

  lemma {:induction false} NamesKeepCost<T, U>(name: T -> U, tape: seq<Share<T>>)
    ensures Cost(RelabelTape(name, tape)) == Cost(tape)
  {
    if tape != [] {
      var n := |tape| - 1;
      assert RelabelTape(name, tape)[..n] == RelabelTape(name, tape[..n]);
      NamesKeepCost(name, tape[..n]);
    }
  }

  /** A plan that was not truncated filled all it could. */
  lemma UntruncatedFill(req: Request, plan: Plan, origins: seq<nat>)
    requires IsPlan(req, plan, origins) && !plan.truncated
    ensures Admit(req).Success? && req.quantity >= 1
    ensures plan.filled == Lesser(req.quantity, Depth(QueueOf(Admit(req).value), BandOf(req)))
  {
    hide OpenBook, NamesParties, Accounts, LeavesExcluded, Resumable, Replannable;
  }

  /** The queue does not depend on how much is wanted. */
  lemma SameBook(req: Request, whole: Request)
    requires whole == req.(quantity := whole.quantity, maxSlices := whole.maxSlices) && Admit(req).Success?
    requires Admit(whole).Success?
    ensures Admit(whole) == Admit(req) && BandOf(whole) == BandOf(req)
  {
    hide OpenBook;
  }

  /**
   Whatever the rows leave to defaults, a plan on the leftovers trades the next shares of the
   interrupted queue, once its icebergs without a display size are cut anew.
   */
  lemma ContinuationServesTheCut(req: Request, plan: Plan, origins: seq<nat>, next: Request, plan2: Plan,
                                 origins2: seq<nat>)
    requires IsPlan(req, plan, origins) && KeepsTurns(req, plan, origins)
    requires IsPlan(next, plan2, origins2) && Continues(next, req, plan)
    ensures Admit(req).Success?
    ensures RelabelTape(Name(origins), TradeTape(plan2.slices))
      == Tape(RecutAll(req.resting, Rest(QueueOf(Admit(req).value), plan.filled)), plan2.filled)
  {
    hide *;
    PlanServes(req, plan, origins);
    PlanServes(next, plan2, origins2);
    PlanReopens(req, plan, origins, next);
    ServingIgnoresNames(Name(origins), QueueOf(Admit(next).value), plan2.filled);
  }

  /**
   Planning composes: splitting a request in two, at any point, trades the same shares of the same
   rows at the same prices in the same order, costs the same, and leaves the same queue, as long
   as no slice cap cut a plan short.
   */
  lemma PlanningComposes(req: Request, plan: Plan, origins: seq<nat>, next: Request, plan2: Plan, origins2: seq<nat>,
                         whole: Request, once: Plan, originsOnce: seq<nat>)
    requires IsPlan(req, plan, origins) && KeepsTurns(req, plan, origins) && AllLast(req, plan, origins)
    requires !plan.truncated
    requires IsPlan(next, plan2, origins2) && Continues(next, req, plan) && !plan2.truncated
    requires whole == req.(quantity := req.quantity + next.quantity, maxSlices := whole.maxSlices)
    requires IsPlan(whole, once, originsOnce) && !once.truncated
    ensures Admit(whole).Success? && Admit(next).Success?
    ensures once.filled == plan.filled + plan2.filled && once.totalCents == plan.totalCents + plan2.totalCents
    ensures TradeTape(once.slices) == TradeTape(plan.slices) + RelabelTape(Name(origins), TradeTape(plan2.slices))
    ensures Rest(QueueOf(Admit(whole).value), once.filled)
      == Relabel(Name(origins), Rest(QueueOf(Admit(next).value), plan2.filled))
  {
    hide IsPlan, Admit, BandOf, Depth, QueueOf, Tape, Rest, Cost, TradeTape, RelabelTape, Relabel, Name, KeepsTurns,
         AllLast, Continues;
    ContinuationServesTheRest(req, plan, origins, next, plan2, origins2);
    UntruncatedFill(req, plan, origins);
    UntruncatedFill(next, plan2, origins2);
    UntruncatedFill(whole, once, originsOnce);
    PlanServes(whole, once, originsOnce);
    SameBook(req, whole);
    assert once.filled == plan.filled + plan2.filled;
  }

  /**
   With caps in play the plans may stop at different points, but never on different shares: the
   shorter record of trades is the beginning of the longer one.
   */
  lemma CapsNeverReorder(req: Request, plan: Plan, origins: seq<nat>, next: Request, plan2: Plan, origins2: seq<nat>,
                         whole: Request, once: Plan, originsOnce: seq<nat>)
    requires IsPlan(req, plan, origins) && KeepsTurns(req, plan, origins) && AllLast(req, plan, origins)
    requires IsPlan(next, plan2, origins2) && Continues(next, req, plan)
    requires whole == req.(quantity := whole.quantity, maxSlices := whole.maxSlices) && IsPlan(whole, once, originsOnce)
    ensures var split := TradeTape(plan.slices) + RelabelTape(Name(origins), TradeTape(plan2.slices));
      split <= TradeTape(once.slices) || TradeTape(once.slices) <= split
  {
    hide *;
    ContinuationServesTheRest(req, plan, origins, next, plan2, origins2);
    PlanServes(whole, once, originsOnce);
    SameBook(req, whole);
    var q, n := QueueOf(Admit(req).value), plan.filled + plan2.filled;
    if n <= once.filled {
      ServingComposes(q, n, once.filled - n);
    } else {
      ServingComposes(q, once.filled, n - once.filled);
    }
  }

  lemma {:induction false} SlicesHoldShares(slices: seq<Slice>)
    requires forall i :: 0 <= i < |slices| ==> slices[i].quantity > 0
    ensures |TradeTape(slices)| >= |slices|
  {
    if slices != [] { SlicesHoldShares(slices[..|slices| - 1]); }
  }

  /** A cap above the requested quantity never stops a plan. */
  lemma SmallRequestsFill(req: Request, plan: Plan, origins: seq<nat>)
    requires IsPlan(req, plan, origins) && req.quantity < CapOf(req)
    ensures plan.filled == Lesser(req.quantity, Depth(QueueOf(Admit(req).value), BandOf(req))) && !plan.truncated
  {
    hide OpenBook, Accounts, LeavesExcluded, Resumable, Replannable, Explicit, ShowsLots, Reopened, KeepsStamps, BandOf,
         TradeTape;
    PlanRespectsLimit(req, plan, origins);
    SlicesHoldShares(plan.slices);
  }
}
