/** The parent order's schedule: how a quantity is cut into slices over a window of ticks. */
module Schedule {
  import opened Numbers

  datatype Policy = Baseline | Lump | Twap | Vwap

  const SLICES := 15

  datatype Slice = Slice(tick: int, quantity: int)

  datatype Window = Window(start: int, end: int)

  /** From a fifth to seven tenths of the session. */
  function ExecutionWindow(ticks: nat): Window { Window(ticks / 5, ticks * 7 / 10) }

  /** The expected share of interval `i`: flat, or high at both ends. */
  function Weight(policy: Policy, i: nat): int { if policy.Twap? then 1 else 4 + Abs(2 * i - SLICES + 1) }

  function Cumulative(policy: Policy, n: nat): int {
    if n == 0 then 0 else Cumulative(policy, n - 1) + Weight(policy, n - 1)
  }

  /** The tick of interval `i`. */
  function TickOf(w: Window, i: nat): int { w.start + i * (w.end - w.start) / SLICES }

  /** The whole number of shares in `part` out of `whole`. */
  function Portion(quantity: int, part: int, whole: int): int
    requires whole > 0
  {
    quantity * part / whole
  }

  /** What should have been sent by the end of interval `i`. */
  function Target(policy: Policy, quantity: int, i: nat): int
    requires Cumulative(policy, SLICES) > 0
  {
    Portion(quantity, Cumulative(policy, i + 1), Cumulative(policy, SLICES))
  }

  function Sent(slices: seq<Slice>): int {
    if slices == [] then 0 else Sent(slices[..|slices| - 1]) + slices[|slices| - 1].quantity
  }

  /** What has been sent by `tick`. */
  function SentBy(slices: seq<Slice>, tick: int): int {
    if slices == [] then 0
    else
      SentBy(slices[..|slices| - 1], tick)
      + if slices[|slices| - 1].tick <= tick then slices[|slices| - 1].quantity else 0
  }

  /** Slices in order, one a tick, none empty, all within the window. */
  ghost predicate WellFormed(slices: seq<Slice>, w: Window) {
    && (forall i, j :: 0 <= i < j < |slices| ==> slices[i].tick < slices[j].tick)
    && (forall i :: 0 <= i < |slices| ==> w.start <= slices[i].tick < w.end && slices[i].quantity > 0)
  }

  lemma {:induction false} CumulativeGrows(policy: Policy, n: nat, m: nat)
    requires n <= m
    ensures 0 <= Cumulative(policy, n) && Cumulative(policy, n) + (m - n) <= Cumulative(policy, m)
    decreases m
  {
    if m > n {
      CumulativeGrows(policy, n, m - 1);
    } else if n > 0 {
      CumulativeGrows(policy, n - 1, n - 1);
    }
  }

  lemma TargetsGrow(policy: Policy, quantity: int, i: nat)
    requires quantity >= 1
    ensures Cumulative(policy, SLICES) > 0
    ensures 0 <= Target(policy, quantity, i)
    ensures i > 0 ==> Target(policy, quantity, i - 1) <= Target(policy, quantity, i)
    ensures Target(policy, quantity, SLICES - 1) == quantity
  {
    hide Portion, Cumulative;
    CumulativeGrows(policy, 0, SLICES);
    CumulativeGrows(policy, 0, i);
    CumulativeGrows(policy, i, i + 1);
    var total := Cumulative(policy, SLICES);
    PortionGrows(quantity, 0, Cumulative(policy, i + 1), total);
    PortionGrows(quantity, Cumulative(policy, i), Cumulative(policy, i + 1), total);
    PortionEnds(quantity, total);
  }

  lemma PortionGrows(quantity: int, a: int, b: int, whole: int)
    requires quantity >= 0 && 0 <= a <= b && whole > 0
    ensures 0 <= Portion(quantity, a, whole) <= Portion(quantity, b, whole)
  {
    assert 0 <= quantity * a;
    assert quantity * (b - a) >= 0;
    assert quantity * b == quantity * a + quantity * (b - a);
    DivisionIsMonotone(0, quantity * a, whole);
    DivisionIsMonotone(quantity * a, quantity * b, whole);
  }

  lemma PortionEnds(quantity: int, whole: int)
    requires whole > 0
    ensures Portion(quantity, 0, whole) == 0 && Portion(quantity, whole, whole) == quantity
  {
    var n := quantity * whole;
    var q := n / whole;
    assert n == q * whole + n % whole;
    assert (quantity - q) * whole == n % whole;
    MultipleIsFar(quantity - q, whole);
  }

  lemma DivisionIsMonotone(a: int, b: int, d: int)
    requires a <= b && d > 0
    ensures a / d <= b / d
  {
    var p, q := a / d, b / d;
    assert a == p * d + a % d && b == q * d + b % d;
    assert (p - q) * d == (a - b) + (b % d - a % d);
    MultipleIsFar(p - q, d);
  }

  /** In a window of at least as many ticks as slices, no two intervals share a tick. */
  lemma TicksAreApart(w: Window, i: nat)
    requires w.end - w.start >= SLICES && i < SLICES
    ensures w.start <= TickOf(w, i) < w.end && (i > 0 ==> TickOf(w, i - 1) < TickOf(w, i))
  {
    var d := w.end - w.start;
    assert 0 <= i * d <= (SLICES - 1) * d by {
      assert (SLICES - 1 - i) * d >= 0;
    }
    if i > 0 { assert i * d == (i - 1) * d + d; }
  }

  lemma {:induction false} AllByNow(slices: seq<Slice>, tick: int)
    requires AllBy(slices, tick)
    ensures SentBy(slices, tick) == Sent(slices)
  {
    if slices != [] { AllByNow(slices[..|slices| - 1], tick); }
  }

  /** The window of a session of at least sixty ticks has room for every slice, with one to spare. */
  lemma WindowHasRoom(ticks: nat)
    requires ticks >= 60
    ensures var w := ExecutionWindow(ticks); w.end - 1 - w.start >= SLICES && 0 <= w.start && w.end <= ticks
  {
  }

  /** The slices of the first `n` intervals. */
  function PlanUpTo(quantity: int, policy: Policy, w: Window, n: nat): seq<Slice>
    requires Cumulative(policy, SLICES) > 0
  {
    if n == 0 then []
    else
      var given := if n == 1 then 0 else Target(policy, quantity, n - 2);
      var target := Target(policy, quantity, n - 1);
      PlanUpTo(quantity, policy, w, n - 1) + if target > given then [Slice(TickOf(w, n - 1), target - given)] else []
  }

  /** The whole plan of a policy. */
  function Plan(quantity: int, policy: Policy, w: Window): seq<Slice> {
    match policy
    case Baseline => []
    case Lump => [Slice(w.start, quantity)]
    case _ =>
      CumulativeGrows(policy, 0, SLICES);
      PlanUpTo(quantity, policy, w, SLICES)
  }

  lemma {:induction false} PlanStartsLate(quantity: int, policy: Policy, w: Window, n: nat)
    requires Cumulative(policy, SLICES) > 0 && w.end >= w.start
    ensures forall k :: 0 <= k < |PlanUpTo(quantity, policy, w, n)| ==>
      PlanUpTo(quantity, policy, w, n)[k].tick >= w.start
  {
    hide Target, Cumulative, TickOf;
    if n > 0 {
      PlanStartsLate(quantity, policy, w, n - 1);
      TickIsInside(w, n - 1);
    }
  }

  lemma TickIsInside(w: Window, i: nat)
    requires w.end >= w.start
    ensures TickOf(w, i) >= w.start
  {
    assert i * (w.end - w.start) >= 0;
  }

  /** No policy sends anything before the window opens. */
  lemma NothingBeforeTheWindow(quantity: int, policy: Policy, w: Window)
    requires w.end >= w.start
    ensures forall k :: 0 <= k < |Plan(quantity, policy, w)| ==> Plan(quantity, policy, w)[k].tick >= w.start
  {
    hide PlanUpTo;
    if policy.Twap? || policy.Vwap? {
      CumulativeGrows(policy, 0, SLICES);
      PlanStartsLate(quantity, policy, w, SLICES);
    }
  }

  /** Cuts the quantity: at the end of every interval what has been sent is the target, rounded down. */
  method PlannedSlices(quantity: int, policy: Policy, w: Window) returns (slices: seq<Slice>)
    requires quantity >= 1 && w.end - w.start >= SLICES
    ensures slices == Plan(quantity, policy, w)
    ensures WellFormed(slices, w)
    ensures Sent(slices) == if policy.Baseline? then 0 else quantity
    ensures policy.Lump? ==> slices == [Slice(w.start, quantity)]
    ensures policy.Twap? || policy.Vwap? ==>
      Cumulative(policy, SLICES) > 0 && forall i: nat :: i < SLICES ==>
        SentBy(slices, TickOf(w, i)) == Target(policy, quantity, i)
  {
    hide Cumulative, Target, TickOf, Portion, Weight, Sent, SentBy, WellFormed, AllBy, PlanUpTo;
    slices := [];
    NothingSent(w);
    if policy.Baseline? { return; }
    if policy.Lump? {
      slices := [Slice(w.start, quantity)];
      SliceAppends([], w, Slice(w.start, quantity));
      assert [] + slices == slices;
      return;
    }
    TargetsGrow(policy, quantity, 0);
    var total := Total(policy);
    var cumulative, given := 0, 0;
    CumulativeStarts(policy);
    NothingPlanned(quantity, policy, w);
    for i := 0 to SLICES
      invariant cumulative == Cumulative(policy, i) && given == (if i == 0 then 0 else Target(policy, quantity, i - 1))
      invariant slices == PlanUpTo(quantity, policy, w, i)
      invariant WellFormed(slices, w) && Sent(slices) == given
      invariant if i == 0 then slices == [] else AllBy(slices, TickOf(w, i - 1))
      invariant forall k: nat :: k < i ==> SentBy(slices, TickOf(w, k)) == Target(policy, quantity, k)
    {
      TargetsGrow(policy, quantity, i);
      TicksAreApart(w, i);
      CumulativeSteps(policy, quantity, i);
      cumulative := cumulative + Weight(policy, i);
      var target, tick := Portion(quantity, cumulative, total), TickOf(w, i);
      EarlierTicks(w, i);
      PlanGrows(quantity, policy, w, i);
      LaterIsFine(slices, if i == 0 then tick - 1 else TickOf(w, i - 1), tick);
      if target > given {
        SliceAppends(slices, w, Slice(tick, target - given));
        slices := slices + [Slice(tick, target - given)];
      }
      AllByNow(slices, tick);
      given := target;
    }
    TargetsGrow(policy, quantity, SLICES - 1);
  }

  lemma NothingPlanned(quantity: int, policy: Policy, w: Window)
    requires Cumulative(policy, SLICES) > 0
    ensures PlanUpTo(quantity, policy, w, 0) == []
  {
  }

  lemma PlanGrows(quantity: int, policy: Policy, w: Window, i: nat)
    requires Cumulative(policy, SLICES) > 0
    ensures var given, target := if i == 0 then 0 else Target(policy, quantity, i - 1), Target(policy, quantity, i);
      PlanUpTo(quantity, policy, w, i + 1)
        == PlanUpTo(quantity, policy, w, i) + if target > given then [Slice(TickOf(w, i), target - given)] else []
  {
  }

  ghost predicate AllBy(slices: seq<Slice>, tick: int) { forall i :: 0 <= i < |slices| ==> slices[i].tick <= tick }

  lemma NothingSent(w: Window)
    ensures Sent([]) == 0 && WellFormed([], w) && forall tick :: AllBy([], tick) && SentBy([], tick) == 0
  {
  }

  lemma LaterIsFine(slices: seq<Slice>, tick: int, later: int)
    requires (slices == [] || AllBy(slices, tick)) && tick < later
    ensures AllBy(slices, later) && forall i :: 0 <= i < |slices| ==> slices[i].tick < later
  {
  }

  lemma SliceAppends(slices: seq<Slice>, w: Window, s: Slice)
    requires WellFormed(slices, w) && w.start <= s.tick < w.end && s.quantity > 0
    requires forall i :: 0 <= i < |slices| ==> slices[i].tick < s.tick
    ensures WellFormed(slices + [s], w) && AllBy(slices + [s], s.tick)
    ensures Sent(slices + [s]) == Sent(slices) + s.quantity
    ensures forall tick :: tick < s.tick ==> SentBy(slices + [s], tick) == SentBy(slices, tick)
  {
    assert (slices + [s])[..|slices|] == slices;
  }

  lemma CumulativeStarts(policy: Policy)
    ensures Cumulative(policy, 0) == 0
  {
  }

  lemma CumulativeSteps(policy: Policy, quantity: int, i: nat)
    requires Cumulative(policy, SLICES) > 0
    ensures Cumulative(policy, i + 1) == Cumulative(policy, i) + Weight(policy, i)
    ensures Target(policy, quantity, i) == Portion(quantity, Cumulative(policy, i + 1), Cumulative(policy, SLICES))
  {
  }

  lemma {:induction false} EarlierTicks(w: Window, i: nat)
    requires w.end - w.start >= SLICES && i < SLICES
    ensures forall k: nat :: k < i ==> TickOf(w, k) < TickOf(w, i)
  {
    hide TickOf;
    if i > 0 {
      EarlierTicks(w, i - 1);
      TicksAreApart(w, i);
    }
  }

  method Total(policy: Policy) returns (total: int)
    ensures total == Cumulative(policy, SLICES)
  {
    total := 0;
    for i := 0 to SLICES
      invariant total == Cumulative(policy, i)
    {
      total := total + Weight(policy, i);
    }
  }
}
