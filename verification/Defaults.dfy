/**
 What goes wrong when rows are left to defaults. Two books on which a plan and its continuation
 trade other shares than one plan for the total: in one an iceberg has no display size, in the other
 a row has no sequence number.
 */
module Defaults {
  import opened Wrappers
  import opened Liquidity
  import opened ShareQueue
  import opened PlanWalk
  import opened Opening
  import opened Residue
  import opened Resumption
  import opened PlanContract
  import opened Composition
  import FinitePlanner
  import Sorting

  // ---- Two icebergs without a display size ----

  const FIRST := Row(Label(Some("first"), Sell, false, 0, None, None), None, 100, 2, 0.0, Some(1.0), None, Some(2))
  const SECOND := Row(Label(Some("second"), Sell, false, 0, None, None), None, 100, 1, 0.0, Some(2.0), None, Some(1))

  /** A purchase from two icebergs at one price. */
  function Purchase(quantity: int): Request { Request(Buy, quantity, [FIRST, SECOND], [], None, None, None) }

  function Icebergs(): seq<Lot<Id>> { [Lot(Resting(0), 100, 2, [2]), Lot(Resting(1), 100, 1, [1])] }

  lemma PurchaseQueue(quantity: int)
    requires 1 <= quantity <= 6
    ensures Admit(Purchase(quantity)).Success? && QueueOf(Admit(Purchase(quantity)).value) == Icebergs()
  {
    var rows := [FIRST, SECOND];
    var s0 := State(0, FIRST, 100, 0.0, 1.0, 2, 2, true, 2, true, false);
    var s1 := State(1, SECOND, 100, 0.0, 2.0, 1, 1, true, 1, true, false);
    assert ReadRow(FIRST, 0, None) == Keep(s0) && ReadRow(SECOND, 1, None) == Keep(s1);
    assert StatesOf(rows, None, 0).value + [s0] == [s0] && [s0] + [s1] == [s0, s1];
    assert StatesOf(rows, None, 1) == Success([s0]);
    assert StatesOf(rows, None, 2) == Success([s0, s1]);
    assert QuotesOf([], 0) == Success([]);
    var a, b := RowItem(s0, 0), RowItem(s1, 1);
    assert RowItems([s0, s1], 1) == [a] by { assert RowItems([s0, s1], 0) == []; }
    assert RowItems([s0, s1], 2) + QuoteItems([]) == [a, b];
    var le := ItemOrder(true);
    assert Sorting.SortBy(le, [b]) == [b] by { assert [b][1..] == []; assert Sorting.SortBy(le, []) == []; }
    assert Sorting.SortBy(le, [a, b]) == [a, b] by { assert [a, b][1..] == [b]; }
    TwoRefills();
    assert LotsOf([s0, s1], [a, b]) == Icebergs();
  }

  lemma TwoRefills()
    ensures Refills(2, 2) == [2] && Refills(1, 1) == [1] && Refills(2, 1) == [1, 1]
  {
    assert Refills(2, 2) == [2] + Refills(0, 2);
    assert Refills(1, 1) == [1] + Refills(0, 1);
    assert Refills(2, 1) == [1] + Refills(1, 1);
  }

  lemma {:induction false} CostIsBounded<T>(tape: seq<Share<T>>, price: int)
    requires price >= 0 && forall i :: 0 <= i < |tape| ==> tape[i].price <= price
    ensures Cost(tape) <= |tape| * price
  {
    if tape != [] { CostIsBounded(tape[..|tape| - 1], price); }
  }

  lemma IcebergFacts(q: seq<Lot<Id>>, n: nat)
    requires q == Icebergs() && n <= 6
    ensures Depth(q, Any) == 6 && |Tape(q, n)| == n && Cost(Tape(q, n)) <= 600
  {
    var a, b := q[0], q[1];
    assert Sum(a.refills) == 2 by { assert a.refills[1..] == []; }
    assert Sum(b.refills) == 1 by { assert b.refills[1..] == []; }
    assert Depth(q, Any) == 6 by { assert q[1..] == [b] && [b][1..] == []; }
    TapeLength(q, n);
    TapeIsMonotone(q, n, false);
    CostIsBounded(Tape(q, n), 100);
  }

  lemma TwoLots<T>(x: Lot<T>, y: Lot<T>)
    requires x.price == y.price && x.qty == 1
    ensures AfterTake([x, y], 1)
      == [y] + (if x.refills == [] then [] else [x.(qty := x.refills[0], refills := x.refills[1..])])
    ensures forall n: nat :: n > 0 ==> Tape([x, y], n) == [Share(x.id, x.price)] + Tape(AfterTake([x, y], 1), n - 1)
  {
    if x.refills != [] {
      RequeueGoesBehindItsLevel([y], [], x.(qty := x.refills[0], refills := x.refills[1..]));
      assert [x, y][1..] == [y] == [y] + [];
    }
  }

  function AfterOneShare(): seq<Lot<Id>> { [Lot(Resting(0), 100, 1, [2]), Lot(Resting(1), 100, 1, [1])] }

  function CutAnew(): seq<Lot<Id>> { [Lot(Resting(0), 100, 1, [1, 1]), Lot(Resting(1), 100, 1, [1])] }

  lemma RecutIcebergs()
    ensures Rest(Icebergs(), 1) == AfterOneShare() && RecutAll([FIRST, SECOND], AfterOneShare()) == CutAnew()
  {
    assert Rest(AfterOneShare(), 0) == AfterOneShare();
    TwoRefills();
    assert Sum([2]) == 2 && Sum([1]) == 1 by { assert [2][1..] == [] && [1][1..] == []; }
  }

  lemma RecutFacts()
    ensures var q := RecutAll([FIRST, SECOND], Rest(Icebergs(), 1)); Depth(q, Any) == 5 && Cost(Tape(q, 4)) <= 400
  {
    RecutIcebergs();
    var q := CutAnew();
    assert Sum([1, 1]) == 2 && Sum([1]) == 1 by { assert [1, 1][1..] == [1] && [1][1..] == []; }
    assert Depth(q, Any) == 5 by { assert q[1..] == [q[1]] && [q[1]][1..] == []; }
    TapeLength(q, 4);
    TapeIsMonotone(q, 4, false);
    CostIsBounded(Tape(q, 4), 100);
  }

  /** Cut anew, the first iceberg loses its place after one share instead of two. */
  lemma RecutReorders()
    ensures var rest := Rest(Icebergs(), 1);
      Tape(rest, 4) != Tape(RecutAll([FIRST, SECOND], rest), 4)
  {
    RecutIcebergs();
    var a, b, c := AfterOneShare()[0], AfterOneShare()[1], CutAnew()[0];
    var a1, b1, c1 := Lot(Resting(0), 100, 2, []), Lot(Resting(1), 100, 1, []), Lot(Resting(0), 100, 1, [1]);
    TwoLots(a, b);
    TwoLots(b, a1);
    assert [b, a1] == [b] + [a1] && [a1, b1] == [a1] + [b1];
    assert Tape([a1, b1], 2)[1].id == Resting(0);
    TwoLots(c, b);
    TwoLots(b, c1);
    TwoLots(c1, b1);
    assert [b, c1] == [b] + [c1] && [c1, b1] == [c1] + [b1];
    assert Tape([c1, b1], 2)[1].id == Resting(1);
    assert Tape([a, b], 4)[3] == Tape([a1, b1], 2)[1];
    assert Tape([c, b], 4)[3] == Tape([c1, b1], 2)[1];
  }

  method BuyIcebergs(quantity: int) returns (plan: Plan, ghost origins: seq<nat>)
    requires 1 <= quantity <= 6
    ensures IsPlan(Purchase(quantity), plan, origins) && plan.filled == quantity
  {
    hide IsPlan, Admit, QueueOf, Tape, Depth, Cost;
    PurchaseQueue(quantity);
    IcebergFacts(Icebergs(), quantity);
    var r;
    r, origins := FinitePlanner.PlanFiniteExecution(Purchase(quantity));
    plan := r.value;
    SmallRequestsFill(Purchase(quantity), plan, origins);
  }

  ghost predicate AfterOne(plan: Plan, origins: seq<nat>, next: Request) {
    && IsPlan(Purchase(1), plan, origins) && plan.filled == 1
    && next == Request(Buy, 4, plan.restingAfter, [], None, None, None)
  }

  lemma ContinuesPurchase(plan: Plan, next: Request)
    requires next == Request(Buy, 4, plan.restingAfter, [], None, None, None)
    ensures Continues(next, Purchase(1), plan)
  {
    assert Reduced([], TradeTape(plan.slices)) == [];
  }

  /** The queue that the second plan finds. */
  lemma NextQueue(plan: Plan, origins: seq<nat>, next: Request)
    requires AfterOne(plan, origins, next)
    ensures Admit(next).Success?
    ensures Relabel(Name(origins), QueueOf(Admit(next).value)) == RecutAll([FIRST, SECOND], Rest(Icebergs(), 1))
    ensures Depth(QueueOf(Admit(next).value), BandOf(next)) == 5
  {
    hide IsPlan, Admit, QueueOf, Rest, Recut, Continues, Relabel, Depth;
    var req := Purchase(1);
    ContinuesPurchase(plan, next);
    LeftoversAreAdmitted(req, plan, origins, next);
    ExplicitKeepsTurns(req, plan, origins);
    PlanReopens(req, plan, origins, next);
    PurchaseQueue(1);
    NamesKeepDepth(Name(origins), QueueOf(Admit(next).value), Any);
    RecutFacts();
  }

  /** What it trades, under the names of the first book. */
  lemma NextTape(plan: Plan, origins: seq<nat>, next: Request)
    requires AfterOne(plan, origins, next)
    ensures Admit(next).Success?
    ensures var tape := Tape(QueueOf(Admit(next).value), 4);
      RelabelTape(Name(origins), tape) == Tape(RecutAll([FIRST, SECOND], Rest(Icebergs(), 1)), 4) && Cost(tape) <= 400
  {
    hide AfterOne, Admit, QueueOf, Rest, Recut, Relabel, RelabelTape, Tape, Cost;
    NextQueue(plan, origins, next);
    var q := QueueOf(Admit(next).value);
    ServingIgnoresNames(Name(origins), q, 4);
    NamesKeepCost(Name(origins), Tape(q, 4));
    RecutFacts();
  }

  /** The second plan fills as well. */
  method BuyTheRest(ghost plan: Plan, ghost origins: seq<nat>, next: Request) returns (plan2: Plan, ghost o2: seq<nat>)
    requires AfterOne(plan, origins, next)
    ensures IsPlan(next, plan2, o2) && plan2.filled == 4
  {
    hide IsPlan, Admit, QueueOf, Tape, Depth, Cost, RelabelTape, Rest;
    NextQueue(plan, origins, next);
    NextTape(plan, origins, next);
    var r;
    r, o2 := FinitePlanner.PlanFiniteExecution(next);
    plan2 := r.value;
    SmallRequestsFill(next, plan2, o2);
  }

  lemma TapesDiffer(plan: Plan, origins: seq<nat>, next: Request, plan2: Plan, o2: seq<nat>, once: Plan, o3: seq<nat>)
    requires AfterOne(plan, origins, next) && IsPlan(next, plan2, o2) && plan2.filled == 4
    requires IsPlan(Purchase(5), once, o3) && once.filled == 5
    ensures TradeTape(once.slices) != TradeTape(plan.slices) + RelabelTape(Name(origins), TradeTape(plan2.slices))
  {
    hide IsPlan, Admit, QueueOf, Tape, RelabelTape, Rest, Recut, TradeTape;
    PurchaseQueue(1);
    PurchaseQueue(5);
    PlanServes(Purchase(1), plan, origins);
    PlanServes(next, plan2, o2);
    PlanServes(Purchase(5), once, o3);
    NextTape(plan, origins, next);
    ServingComposes(Icebergs(), 1, 4);
    RecutReorders();
    TailsDecide(TradeTape(plan.slices), Tape(Rest(Icebergs(), 1), 4),
                RelabelTape(Name(origins), TradeTape(plan2.slices)));
  }

  lemma TailsDecide<T>(a: seq<T>, b: seq<T>, c: seq<T>)
    requires b != c
    ensures a + b != a + c
  {
    assert (a + b)[|a|..] == b && (a + c)[|a|..] == c;
  }

  /** Five shares at once, and one share followed by four: no cap in play, and yet other rows trade. */
  method DefaultDisplayReorders() returns (plan: Plan, next: Request, plan2: Plan, once: Plan, ghost origins: seq<nat>,
                                           ghost o2: seq<nat>, ghost o3: seq<nat>)
    ensures IsPlan(Purchase(1), plan, origins) && plan.filled == 1
    ensures Continues(next, Purchase(1), plan) && IsPlan(next, plan2, o2) && plan2.filled == 4
    ensures IsPlan(Purchase(5), once, o3) && once.filled == 5
    ensures TradeTape(once.slices) != TradeTape(plan.slices) + RelabelTape(Name(origins), TradeTape(plan2.slices))
  {
    hide IsPlan, Continues, TradeTape, RelabelTape;
    plan, origins := BuyIcebergs(1);
    once, o3 := BuyIcebergs(5);
    next := Request(Buy, 4, plan.restingAfter, [], None, None, None);
    ContinuesPurchase(plan, next);
    plan2, o2 := BuyTheRest(plan, origins, next);
    TapesDiffer(plan, origins, next, plan2, o2, once, o3);
  }

  // ---- A row without a sequence number ----

  const EARLY := Row(Label(Some("early"), Sell, false, 0, None, None), None, 99, 1, 0.0, Some(0.0), None, None)
  const LATE := Row(Label(Some("late"), Sell, false, 0, None, None), None, 100, 1, 0.0, None, None, None)
  const OFFER := Quote(100, 1, None, None)

  /** A purchase from two rows and a quote; the second row is numbered by its position, and so is the quote. */
  function Errand(quantity: int): Request { Request(Buy, quantity, [EARLY, LATE], [OFFER], None, None, None) }

  function ErrandLots(): seq<Lot<Id>> { [Lot(Resting(0), 99, 1, []), Lot(Quoted(0), 100, 1, []),
                                         Lot(Resting(1), 100, 1, [])] }

  /** What is asked for after the first share. */
  const RERUN := Request(Buy, 1, [LATE], [OFFER], None, None, None)

  function RerunLots(): seq<Lot<Id>> { [Lot(Resting(0), 100, 1, []), Lot(Quoted(0), 100, 1, [])] }

  lemma ErrandQueue(quantity: int)
    requires 1 <= quantity <= 2
    ensures Admit(Errand(quantity)).Success? && QueueOf(Admit(Errand(quantity)).value) == ErrandLots()
  {
    var rows := [EARLY, LATE];
    var s0 := State(0, EARLY, 99, 0.0, 0.0, 1, 0, false, 1, true, false);
    var s1 := State(1, LATE, 100, 0.0, 1.0, 1, 0, false, 1, true, false);
    var x := QuoteState(0, 100, 0.0, 0.0, 1);
    assert ReadRow(EARLY, 0, None) == Keep(s0) && ReadRow(LATE, 1, None) == Keep(s1) && ReadQuote(OFFER, 0) == Keep(x);
    assert StatesOf(rows, None, 0).value + [s0] == [s0] && [s0] + [s1] == [s0, s1];
    assert StatesOf(rows, None, 1) == Success([s0]);
    assert StatesOf(rows, None, 2) == Success([s0, s1]);
    assert QuotesOf([OFFER], 1) == Success([x]) by { assert QuotesOf([OFFER], 0) == Success([]) && [] + [x] == [x]; }
    var a, b, c := RowItem(s0, 0), RowItem(s1, 1), QuoteItem(x);
    assert RowItems([s0, s1], 1) == [a] by { assert RowItems([s0, s1], 0) == []; }
    assert RowItems([s0, s1], 2) + QuoteItems([x]) == [a, b, c];
    var le := ItemOrder(true);
    assert Sorting.SortBy(le, [c]) == [c] by { assert [c][1..] == []; assert Sorting.SortBy(le, []) == []; }
    assert Sorting.SortBy(le, [b, c]) == [c, b] by {
      assert [b, c][1..] == [c];
      assert Sorting.Insert(le, b, []) == [b] && [c][1..] == [];
    }
    assert Sorting.SortBy(le, [a, b, c]) == [a, c, b] by { assert [a, b, c][1..] == [b, c]; }
    assert LotsOf([s0, s1], [a, c, b]) == ErrandLots();
  }

  /** At its new position the row ties with the quote, and rows go before quotes. */
  lemma RerunQueue()
    ensures Admit(RERUN).Success? && QueueOf(Admit(RERUN).value) == RerunLots()
  {
    var s := State(0, LATE, 100, 0.0, 0.0, 1, 0, false, 1, true, false);
    var x := QuoteState(0, 100, 0.0, 0.0, 1);
    assert ReadRow(LATE, 0, None) == Keep(s) && ReadQuote(OFFER, 0) == Keep(x);
    assert StatesOf([LATE], None, 1) == Success([s]) by {
      assert StatesOf([LATE], None, 0) == Success([]) && [] + [s] == [s];
    }
    assert QuotesOf([OFFER], 1) == Success([x]) by { assert QuotesOf([OFFER], 0) == Success([]) && [] + [x] == [x]; }
    var b, c := RowItem(s, 0), QuoteItem(x);
    assert RowItems([s], 1) + QuoteItems([x]) == [b, c] by { assert RowItems([s], 0) == []; }
    var le := ItemOrder(true);
    assert Sorting.SortBy(le, [c]) == [c] by { assert [c][1..] == []; assert Sorting.SortBy(le, []) == []; }
    assert Sorting.SortBy(le, [b, c]) == [b, c] by { assert [b, c][1..] == [c]; }
    assert LotsOf([s], [b, c]) == RerunLots();
  }

  /** A lot of one share is served and gone. */
  lemma OneShareLot<T>(x: Lot<T>, q: seq<Lot<T>>, n: nat)
    requires x.qty == 1 && x.refills == []
    ensures Depth([x] + q, Any) == 1 + Depth(q, Any)
    ensures Tape([x] + q, n) == if n == 0 then [] else [Share(x.id, x.price)] + Tape(q, n - 1)
  {
    assert ([x] + q)[1..] == q && ([x] + q)[0] == x;
    assert AfterTake([x] + q, 1) == q;
  }

  lemma NothingToServe<T>()
    ensures Depth<T>([], Any) == 0
    ensures forall q: seq<Lot<T>> :: Tape(q, 0) == []
  {
  }

  lemma ErrandFacts()
    ensures Depth(ErrandLots(), Any) == 3
    ensures Tape(ErrandLots(), 1) == [Share(Resting(0), 99)]
    ensures Tape(ErrandLots(), 2) == [Share(Resting(0), 99), Share(Quoted(0), 100)]
  {
    hide Tape, Depth;
    var a, b, c := Lot(Resting(0), 99, 1, []), Lot(Quoted(0), 100, 1, []), Lot(Resting(1), 100, 1, []);
    NothingToServe<Id>();
    OneShareLot(c, [], 0);
    OneShareLot(b, [c], 1);
    OneShareLot(a, [b, c], 1);
    OneShareLot(a, [b, c], 2);
    assert [c] + [] == [c] && [b] + [c] == [b, c] && [a] + [b, c] == ErrandLots();
  }

  lemma RerunFacts()
    ensures Depth(RerunLots(), Any) == 2 && Tape(RerunLots(), 1) == [Share(Resting(0), 100)]
  {
    hide Tape, Depth;
    var a, b := Lot(Resting(0), 100, 1, []), Lot(Quoted(0), 100, 1, []);
    NothingToServe<Id>();
    OneShareLot(b, [], 0);
    OneShareLot(a, [b], 1);
    assert [b] + [] == [b] && [a] + [b] == RerunLots();
  }

  lemma CostOfOne<T>(s: Share<T>, t: Share<T>)
    ensures Cost([s]) == s.price && Cost([s, t]) == s.price + t.price
  {
    assert [s][..0] == [] && [s, t][..1] == [s];
  }

  method RunErrand(quantity: int) returns (plan: Plan, ghost origins: seq<nat>)
    requires 1 <= quantity <= 2
    ensures IsPlan(Errand(quantity), plan, origins) && plan.filled == quantity
  {
    hide IsPlan, Admit, QueueOf, Tape, Depth, Cost;
    ErrandQueue(quantity);
    ErrandFacts();
    CostOfOne(Share(Resting(0), 99), Share(Quoted(0), 100));
    var r;
    r, origins := FinitePlanner.PlanFiniteExecution(Errand(quantity));
    plan := r.value;
    SmallRequestsFill(Errand(quantity), plan, origins);
  }

  /** After the first share the second row is left, as it was, and now comes first in the list. */
  lemma LateIsLeft(plan: Plan, origins: seq<nat>)
    requires IsPlan(Errand(1), plan, origins) && plan.filled == 1
    ensures plan.restingAfter == [LATE] && origins == [1] && Continues(RERUN, Errand(1), plan)
  {
    hide IsPlan, Accounts, Admit, QueueOf, Tape;
    ErrandQueue(1);
    ErrandFacts();
    PlanServes(Errand(1), plan, origins);
    PlanAccounts(Errand(1), plan, origins);
    FirstShare();
    OnlyLate([Share(Resting(0), 99)], plan.restingAfter, origins);
    assert Reduced([OFFER], [Share(Resting(0), 99)]) == [OFFER];
  }

  lemma PlanAccounts(req: Request, plan: Plan, origins: seq<nat>)
    requires IsPlan(req, plan, origins)
    ensures Accounts(req.resting, TradeTape(plan.slices), plan.restingAfter, origins)
  {
    hide Accounts, NamesParties, LeavesExcluded, KeepsStamps, Resumable, KeepsTurns, StopsRight, ShowsLots;
  }

  lemma FirstShare()
    ensures var tape := [Share(Resting(0), 99)];
      SharesOf(tape, Resting(0)) == 1 && SharesOf(tape, Resting(1)) == 0 && SharesOf(tape, Quoted(0)) == 0
  {
    assert [Share(Resting(0), 99)][1..] == [];
  }

  lemma AllOnes(s: seq<nat>, i: nat, j: nat)
    requires i < |s| && j < |s| && forall k :: 0 <= k < |s| ==> s[k] == 1
    ensures s[i] == s[j]
  {
  }

  lemma OnlyLate(tape: seq<Share<Id>>, after: seq<Row>, origins: seq<nat>)
    requires Accounts([EARLY, LATE], tape, after, origins) && SharesOf(tape, Resting(0)) == 1
    requires SharesOf(tape, Resting(1)) == 0
    ensures after == [LATE] && origins == [1]
  {
    forall j | 0 <= j < |after|
      ensures origins[j] == 1 && after[j] == LATE
    {
      assert LeftOf(after[j], [EARLY, LATE][origins[j]], SharesOf(tape, Resting(origins[j])));
    }
    if |after| > 1 {
      AllOnes(origins, 0, 1);
      assert false;
    }
    assert 1 in origins;
  }

  method RunAgain() returns (plan: Plan, ghost origins: seq<nat>)
    ensures IsPlan(RERUN, plan, origins) && plan.filled == 1
  {
    hide IsPlan, Admit, QueueOf, Tape, Depth, Cost;
    RerunQueue();
    RerunFacts();
    CostOfOne(Share(Resting(0), 100), Share(Resting(0), 100));
    var r;
    r, origins := FinitePlanner.PlanFiniteExecution(RERUN);
    plan := r.value;
    SmallRequestsFill(RERUN, plan, origins);
  }

  /** Two shares at once, and one share followed by another: the row has overtaken the quote. */
  method DefaultTurnReorders()
    returns (plan: Plan, plan2: Plan, once: Plan, ghost origins: seq<nat>, ghost o2: seq<nat>, ghost o3: seq<nat>)
    ensures IsPlan(Errand(1), plan, origins) && plan.filled == 1
    ensures Continues(RERUN, Errand(1), plan) && IsPlan(RERUN, plan2, o2) && plan2.filled == 1
    ensures IsPlan(Errand(2), once, o3) && once.filled == 2
    ensures TradeTape(once.slices) != TradeTape(plan.slices) + RelabelTape(Name(origins), TradeTape(plan2.slices))
  {
    hide IsPlan, Continues, TradeTape, RelabelTape;
    plan, origins := RunErrand(1);
    once, o3 := RunErrand(2);
    plan2, o2 := RunAgain();
    LateIsLeft(plan, origins);
    RerunDiffers(plan, origins, plan2, o2, once, o3);
  }

  lemma RerunDiffers(plan: Plan, origins: seq<nat>, plan2: Plan, o2: seq<nat>, once: Plan, o3: seq<nat>)
    requires IsPlan(Errand(1), plan, origins) && plan.filled == 1 && origins == [1]
    requires IsPlan(RERUN, plan2, o2) && plan2.filled == 1 && IsPlan(Errand(2), once, o3) && once.filled == 2
    ensures TradeTape(once.slices) != TradeTape(plan.slices) + RelabelTape(Name(origins), TradeTape(plan2.slices))
  {
    hide IsPlan, TradeTape, Tape, QueueOf, Admit, Depth, Rest, Cost, RelabelTape, ErrandLots, RerunLots, BandOf;
    ErrandQueue(1);
    ErrandQueue(2);
    RerunQueue();
    PlanServes(Errand(1), plan, origins);
    PlanServes(Errand(2), once, o3);
    PlanServes(RERUN, plan2, o2);
    ErrandFacts();
    RerunFacts();
    assert TradeTape(once.slices)[1].id == Quoted(0);
    assert RelabelTape(Name(origins), TradeTape(plan2.slices))[0].id == Resting(1);
  }
}
