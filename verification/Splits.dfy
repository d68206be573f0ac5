/**
 Splitting an order into any number of parts. Each part is planned on what the one before it has
 left, and together they trade what one plan for the total trades.
 */
module Splits {
  import opened Numbers
  import opened ShareQueue
  import opened PlanWalk
  import opened Opening
  import opened Residue
  import opened PlanContract
  import opened Composition

  /** A request, its plan, and which row each leftover was. */
  datatype Leg = Leg(req: Request, plan: Plan, origins: seq<nat>)

  /** Each leg is a plan, on the leftovers of the leg before it. */
  ghost predicate Chain(legs: seq<Leg>) {
    && (forall i :: 0 <= i < |legs| ==> IsPlan(legs[i].req, legs[i].plan, legs[i].origins))
    && (forall i :: 0 <= i < |legs| - 1 ==> Continues(legs[i + 1].req, legs[i].req, legs[i].plan))
  }

  /** All legs but the last leave rows that keep their turns and last. */
  ghost predicate Resumes(legs: seq<Leg>) {
    forall i :: 0 <= i < |legs| - 1 ==>
      KeepsTurns(legs[i].req, legs[i].plan, legs[i].origins) && AllLast(legs[i].req, legs[i].plan, legs[i].origins)
  }

  function Wanted(legs: seq<Leg>): int { if legs == [] then 0 else legs[0].req.quantity + Wanted(legs[1..]) }

  function Got(legs: seq<Leg>): nat { if legs == [] then 0 else legs[0].plan.filled + Got(legs[1..]) }

  function Paid(legs: seq<Leg>): nat { if legs == [] then 0 else legs[0].plan.totalCents + Paid(legs[1..]) }

  /** All trades, under the names of the first book. */
  function TapeOf(legs: seq<Leg>): seq<Share<Id>> {
    if legs == [] then []
    else TradeTape(legs[0].plan.slices) + RelabelTape(Name(legs[0].origins), TapeOf(legs[1..]))
  }

  lemma TailIsChain(legs: seq<Leg>)
    requires Chain(legs) && legs != []
    ensures Chain(legs[1..]) && IsPlan(legs[0].req, legs[0].plan, legs[0].origins)
    ensures |legs| > 1 ==>
      Continues(legs[1].req, legs[0].req, legs[0].plan) && IsPlan(legs[1].req, legs[1].plan, legs[1].origins)
    ensures Resumes(legs) ==> Resumes(legs[1..])
    ensures Resumes(legs) && |legs| > 1 ==>
      KeepsTurns(legs[0].req, legs[0].plan, legs[0].origins) && AllLast(legs[0].req, legs[0].plan, legs[0].origins)
  {
    hide IsPlan, Continues, KeepsTurns, AllLast;
    var tail := legs[1..];
    assert forall i :: 0 <= i < |tail| ==> tail[i] == legs[i + 1];
    assert legs[0] in legs && (|legs| > 1 ==> legs[0 + 1] == legs[1]);
  }

  lemma NoNames(name: Id -> Id)
    ensures RelabelTape(name, []) == []
  {
  }

  /** However many legs there are, and wherever caps stop them: they serve the first book's queue from its head. */
  lemma {:induction false} ChainServesTheQueue(legs: seq<Leg>)
    requires Chain(legs) && Resumes(legs) && legs != []
    ensures Admit(legs[0].req).Success?
    ensures var q := QueueOf(Admit(legs[0].req).value);
      TapeOf(legs) == Tape(q, Got(legs)) && Paid(legs) == Cost(Tape(q, Got(legs)))
    decreases |legs|
  {
    hide IsPlan, Admit, QueueOf, Tape, Rest, Cost, TradeTape, RelabelTape, Relabel, Name, KeepsTurns, AllLast,
         Continues, Chain, Resumes, BandOf, Depth;
    var first, rest := legs[0], legs[1..];
    TailIsChain(legs);
    PlanServes(first.req, first.plan, first.origins);
    var q, name := QueueOf(Admit(first.req).value), Name(first.origins);
    if rest == [] {
      NoNames(name);
      assert TapeOf(legs) == TradeTape(first.plan.slices) + [];
    } else {
      ChainServesTheQueue(rest);
      PlanResumes(first.req, first.plan, first.origins, rest[0].req);
      var q2 := QueueOf(Admit(rest[0].req).value);
      ServingIgnoresNames(name, q2, Got(rest));
      ServingComposes(q, first.plan.filled, Got(rest));
      CostAdds(Tape(q, first.plan.filled), Tape(Rest(q, first.plan.filled), Got(rest)));
      NamesKeepCost(name, Tape(q2, Got(rest)));
    }
  }

  /** With no cap in the way, the legs get what is wanted in all, or all there is. */
  lemma {:induction false} ChainFills(legs: seq<Leg>)
    requires Chain(legs) && Resumes(legs) && legs != [] && forall i :: 0 <= i < |legs| ==> !legs[i].plan.truncated
    ensures Admit(legs[0].req).Success? && Wanted(legs) >= 1
    ensures Got(legs) == Lesser(Wanted(legs), Depth(QueueOf(Admit(legs[0].req).value), BandOf(legs[0].req)))
    decreases |legs|
  {
    hide IsPlan, Admit, QueueOf, Tape, Rest, Cost, TradeTape, RelabelTape, Relabel, Name, KeepsTurns, AllLast,
         Continues, Chain, Resumes, BandOf, Depth;
    var first, rest := legs[0], legs[1..];
    TailIsChain(legs);
    UntruncatedFill(first.req, first.plan, first.origins);
    if rest != [] {
      assert forall i :: 0 <= i < |rest| ==> rest[i] == legs[i + 1];
      ChainFills(rest);
      ContinuationServesTheRest(first.req, first.plan, first.origins, rest[0].req, rest[0].plan, rest[0].origins);
      SameBand(first.req, rest[0].req, first.plan);
    }
  }

  lemma SameBand(req: Request, next: Request, plan: Plan)
    requires Continues(next, req, plan)
    ensures BandOf(next) == BandOf(req)
  {
  }

  /** The whole order in one plan: the same shares of the same rows, in the same order, at the same total. */
  lemma SplitsCompose(legs: seq<Leg>, once: Leg)
    requires Chain(legs) && Resumes(legs) && legs != [] && forall i :: 0 <= i < |legs| ==> !legs[i].plan.truncated
    requires IsPlan(once.req, once.plan, once.origins) && !once.plan.truncated
    requires once.req == legs[0].req.(quantity := Wanted(legs), maxSlices := once.req.maxSlices)
    ensures once.plan.filled == Got(legs) && once.plan.totalCents == Paid(legs)
    ensures TradeTape(once.plan.slices) == TapeOf(legs)
  {
    hide IsPlan, Admit, QueueOf, Tape, Rest, Cost, TradeTape, KeepsTurns, AllLast, Continues, Chain, Resumes, BandOf,
         Depth;
    ChainFills(legs);
    ChainServesTheQueue(legs);
    UntruncatedFill(once.req, once.plan, once.origins);
    PlanServes(once.req, once.plan, once.origins);
    SameBook(legs[0].req, once.req);
  }

  /**
   Whatever the caps, a split order and a whole one never trade different shares: one record begins
   with the other.
   */
  lemma SplitsNeverReorder(legs: seq<Leg>, once: Leg)
    requires Chain(legs) && Resumes(legs) && legs != []
    requires IsPlan(once.req, once.plan, once.origins)
    requires once.req == legs[0].req.(quantity := once.req.quantity, maxSlices := once.req.maxSlices)
    ensures TapeOf(legs) <= TradeTape(once.plan.slices) || TradeTape(once.plan.slices) <= TapeOf(legs)
  {
    hide IsPlan, Admit, QueueOf, Rest, Cost, TradeTape, KeepsTurns, AllLast, Continues, Chain, Resumes, BandOf, Depth;
    ChainServesTheQueue(legs);
    PlanServes(once.req, once.plan, once.origins);
    SameBook(legs[0].req, once.req);
    ShorterIsPrefix(QueueOf(Admit(legs[0].req).value), Got(legs), once.plan.filled);
  }

  lemma ShorterIsPrefix(q: seq<Lot<Id>>, m: nat, n: nat)
    ensures Tape(q, m) <= Tape(q, n) || Tape(q, n) <= Tape(q, m)
  {
    if m <= n {
      ServingComposes(q, m, n - m);
    } else {
      ServingComposes(q, n, m - n);
    }
  }

  /** Where every row has a sequence number and every iceberg a display size, any split composes. */
  lemma {:induction false} ReplannableChains(legs: seq<Leg>)
    requires Chain(legs) && legs != [] && Replannable(legs[0].req.resting)
    ensures Resumes(legs)
    decreases |legs|
  {
    hide IsPlan, Continues, KeepsTurns, AllLast, Replannable;
    TailIsChain(legs);
    ReplannableLasts(legs[0].req, legs[0].plan, legs[0].origins);
    if |legs| > 1 {
      var tail := legs[1..];
      assert forall i :: 0 <= i < |tail| ==> tail[i] == legs[i + 1];
      StaysReplannable(legs[0].req, legs[0].plan, legs[0].origins, legs[1].req);
      ReplannableChains(tail);
      forall i | 0 <= i < |legs| - 1
        ensures KeepsTurns(legs[i].req, legs[i].plan, legs[i].origins)
        ensures AllLast(legs[i].req, legs[i].plan, legs[i].origins)
      {
        if i > 0 { assert tail[i - 1] == legs[i]; }
      }
    }
  }

  lemma StaysReplannable(req: Request, plan: Plan, origins: seq<nat>, next: Request)
    requires IsPlan(req, plan, origins) && Continues(next, req, plan) && Replannable(req.resting)
    ensures Replannable(next.resting)
  {
    hide Serves, StopsRight, NamesParties, LeavesExcluded, KeepsStamps, OpenBook, QueueOf, ShowsLots, Admit, Resumable,
         Accounts, KeepsTurns;
  }
}
