/** The matching engine: executions, reservations, and the changes that arrive for its books meanwhile. */
module MatchingEngine {
  import opened Wrappers
  import opened Liquidity
  import opened PlanContract
  import opened QuoteBook
  import opened StampBlind
  import opened ChangeSteps
  import opened Reservations
  import opened ExecutionSteps
  import opened Prunes
  import FinitePlanner

  datatype Outcome = Busy | Refused(error: PlanError) | NoTrade | Traded(plan: Plan, handle: Option<nat>)

  /** Nothing of the other symbols has changed. */
  ghost predicate OnlyAbout(v: Core, c: Core, s: string) {
    forall x :: x != s ==>
      && DeskOf(v, x) == DeskOf(c, x)
      && (x in v.reserved <==> x in c.reserved) && (x in c.reserved ==> v.reserved[x] == c.reserved[x])
  }

  ghost predicate SerialOnlyAbout(k: Serial, m: Serial, s: string) {
    forall x :: x != s ==> At(k, x) == At(m, x)
  }

  lemma DeliveryIsLocal(c: Core, s: string, change: Change, now: real)
    ensures OnlyAbout(Deliver(c, s, change, now), c, s)
    ensures var v := Deliver(c, s, change, now); v.handles == c.handles && v.issued == c.issued && v.fired == c.fired
    ensures s !in c.reserved ==> Deliver(c, s, change, now).reserved == c.reserved
  {
    hide Apply;
    if s in c.reserved {
      assert forall x :: DeskOf(Defer(c, s, change), x) == DeskOf(c, x);
    } else {
      var r := Apply(DeskOf(c, s), change, now, c.counter);
      DeskIsWritten(c, s, r.desk, r.counter);
    }
  }

  lemma SameDelivery(v: Core, c: Core, s: string, change: Change, now: real)
    requires SameAt(v, c, s) && change.Prune?
    ensures SameAt(Deliver(v, s, change, now), Deliver(c, s, change, now), s)
  {
  }

  /** Every symbol outside `todo` that passes the filter has been pruned, and nothing else has happened. */
  ghost predicate PrunedBooks(v: Core, c: Core, todo: set<string>, matches: string -> bool, tick: int, now: real) {
    forall s :: SameAt(v, if s !in todo && matches(s) then PruneOne(c, s, tick, now) else c, s)
  }

  ghost predicate PrunedSerials(k: Serial, m: Serial, done: set<string>, matches: string -> bool, tick: int) {
    forall s :: At(k, s) == if s in done && matches(s) then ApplyBare(At(m, s), Prune(tick)) else At(m, s)
  }

  lemma PruneStarts(c: Core, kept: Serial, undone: Serial, all: set<string>, matches: string -> bool, tick: int,
                    now: real)
    requires all == c.realBooks.Keys
    ensures PrunedBooks(c, c, all, matches, tick, now) && PrunedSerials(kept, kept, all - all, matches, tick)
    ensures PrunedSerials(undone, undone, all - all, matches, tick)
  {
  }

  lemma PruneStep(v: Core, c: Core, todo: set<string>, s: string, matches: string -> bool, tick: int, now: real)
    requires PrunedBooks(v, c, todo, matches, tick, now) && s in todo && s in c.realBooks
    ensures PrunedBooks(if matches(s) then Deliver(v, s, Prune(tick), now) else v, c, todo - {s}, matches, tick, now)
  {
    hide Deliver, DeskOf;
    assert SameAt(v, c, s);
    DeliveryIsLocal(v, s, Prune(tick), now);
    SameDelivery(v, c, s, Prune(tick), now);
    var u := if matches(s) then Deliver(v, s, Prune(tick), now) else v;
    forall x
      ensures SameAt(u, if x !in todo - {s} && matches(x) then PruneOne(c, x, tick, now) else c, x)
    {
      assert SameAt(v, if x !in todo && matches(x) then PruneOne(c, x, tick, now) else c, x);
    }
  }

  lemma PruneSerialStep(k: Serial, m: Serial, done: set<string>, s: string, matches: string -> bool, tick: int)
    requires PrunedSerials(k, m, done, matches, tick) && s !in done
    ensures PrunedSerials(if matches(s) then k[s := ApplyBare(At(k, s), Prune(tick))] else k, m, done + {s}, matches,
                          tick)
  {
    hide ApplyBare;
  }

  lemma PruneEnds(v: Core, c: Core, matches: string -> bool, tick: int, now: real)
    requires PrunedBooks(v, c, {}, matches, tick, now)
    ensures forall s :: SameAt(v, if matches(s) then PruneOne(c, s, tick, now) else c, s)
  {
    forall s
      ensures SameAt(v, if matches(s) then PruneOne(c, s, tick, now) else c, s)
    {
      assert SameAt(v, if s !in {} && matches(s) then PruneOne(c, s, tick, now) else c, s);
    }
  }

  lemma LocalSteps(c: Core, v: Core, u: Core, s: string)
    requires OnlyAbout(v, c, s) && OnlyAbout(u, v, s)
    ensures OnlyAbout(u, c, s)
  {
  }

  lemma SoundIsStamped(c: Core, now: real, kept: Serial, undone: Serial, s: string)
    requires Sound(c, now, kept, undone)
    ensures StampedDesk(DeskOf(c, s), now, c.counter) && now >= 0.0
    ensures s !in c.reserved ==> At(kept, s) == BareDesk(DeskOf(c, s)) == At(undone, s)
  {
    assert InStep(c, s, kept, undone);
  }

  lemma CloseIsLocal(c: Core, handle: nat, commit: bool)
    requires handle in c.handles && c.handles[handle] in c.reserved
    ensures OnlyAbout(Close(c, handle, commit), c, c.handles[handle])
  {
    DeskIsWritten(c, c.handles[handle], c.reserved[c.handles[handle]].before, c.counter);
  }

  lemma HandleIsReserved(c: Core, now: real, kept: Serial, undone: Serial, handle: nat)
    requires Sound(c, now, kept, undone) && handle in c.handles
    ensures c.handles[handle] in c.reserved && c.reserved[c.handles[handle]].handle == handle
  {
  }

  class Engine {
    var realBooks: map<string, Book>
    var orderBooks: map<string, Levels>
    var reservedSymbols: map<string, Reservation>
    var reservedFills: map<nat, string>
    var issued: nat
    var quoteSequence: real
    var fired: seq<Hook>
    ghost var clock: real
    ghost var kept: Serial
    ghost var undone: Serial

    function View(): Core
      reads this
    {
      Core(realBooks, orderBooks, reservedSymbols, reservedFills, issued, quoteSequence, fired)
    }

    ghost predicate Valid()
      reads this
    {
      Sound(View(), clock, kept, undone)
    }

    constructor ()
      ensures Valid() && clock == 0.0 && fired == [] && reservedSymbols == map[]
      ensures forall s :: DeskOf(View(), s) == Desk(None, None)
    {
      realBooks, orderBooks, reservedSymbols, reservedFills := map[], map[], map[], map[];
      issued, quoteSequence, fired := 0, 0.0, [];
      clock, kept, undone := 0.0, map[], map[];
    }

    method Become(c: Core)
      modifies this
      ensures View() == c && clock == old(clock) && kept == old(kept) && undone == old(undone)
    {
      realBooks, orderBooks, reservedSymbols, reservedFills := c.realBooks, c.orderBooks, c.reserved, c.handles;
      issued, quoteSequence, fired := c.issued, c.counter, c.fired;
    }

    /** A change arrives: it waits for the open execution of its symbol, or happens at once. */
    method Receive(s: string, change: Change, now: real)
      requires Valid() && clock <= now
      modifies this
      ensures Valid() && clock == now
      ensures View() == Deliver(old(View()), s, change, now)
      ensures kept == old(kept)[s := ApplyBare(At(old(kept), s), change)]
      ensures undone == old(undone)[s := ApplyBare(At(old(undone), s), change)]
    {
      hide Sound, Apply, ApplyBare;
      DeliveryStaysInStep(View(), s, change, clock, now, kept, undone);
      TakeChange(s, change, now);
      clock := now;
      kept, undone := kept[s := ApplyBare(At(kept, s), change)], undone[s := ApplyBare(At(undone, s), change)];
    }

    /** The engine's part of it. */
    method TakeChange(s: string, change: Change, now: real)
      modifies this`realBooks, this`orderBooks, this`quoteSequence, this`reservedSymbols
      ensures View() == Deliver(old(View()), s, change, now)
    {
      hide Apply;
      if s in reservedSymbols {
        var r := reservedSymbols[s];
        reservedSymbols := reservedSymbols[s := r.(deferred := r.deferred + [change])];
      } else {
        var r := ApplyChange(DeskOf(View(), s), change, now, quoteSequence);
        realBooks, orderBooks := Put(realBooks, s, r.desk.resting), Put(orderBooks, s, r.desk.synthetic);
        quoteSequence := r.counter;
      }
    }

    /** Executes against the books of one symbol, settled at once or under a reservation. */
    method ExecuteFinite(s: string, side: Side, quantity: int, limit: Option<int>, exclude: Option<string>,
                         deferVirtualFills: bool, requireFull: bool, external: bool)
      returns (r: Outcome, ghost origins: seq<nat>)
      requires Valid()
      modifies this
      ensures Valid() && clock == old(clock)
      ensures r.Busy? <==> s in old(reservedSymbols)
      ensures !r.Traded? ==> View() == old(View()) && kept == old(kept) && undone == old(undone)
      ensures r.Traded? ==>
        var c, plan := old(View()), r.plan;
        var d, hooks := Executed(DeskOf(c, s), side.Buying(), plan, external), HooksOf(s, plan.slices);
        && IsPlan(Ask(DeskOf(c, s), side, quantity, limit, exclude, external), plan, origins)
        && plan.filled > 0 && (requireFull ==> plan.remaining == 0)
        && (r.handle.Some? <==> deferVirtualFills)
        && kept == old(kept)[s := BareDesk(d)]
        && (!deferVirtualFills ==>
            && View() == WithDesk(c, s, d, Highest(plan.restingAfter, c.counter)).(fired := c.fired + hooks)
            && undone == old(undone)[s := BareDesk(d)])
        && (deferVirtualFills ==>
            && r.handle == Some(c.issued) && undone == old(undone)
            && View() == Reserve(c, s, d, Highest(plan.restingAfter, c.counter), hooks))
    {
      hide Sound, IsPlan, Executed, HooksOf, Highest, StampedDesk, BareDesk;
      origins := [];
      if s in reservedSymbols { return Busy, []; }
      var c := View();
      var req := Ask(DeskOf(c, s), side, quantity, limit, exclude, external);
      var planned;
      planned, origins := FinitePlanner.PlanFiniteExecution(req);
      if planned.Failure? { return Refused(planned.error), []; }
      var plan := planned.value;
      if plan.filled == 0 || (requireFull && plan.remaining > 0) { return NoTrade, []; }
      SoundIsStamped(c, clock, kept, undone, s);
      PlanNamesParties(req, plan, origins);
      ExecutedIsStamped(DeskOf(c, s), side, quantity, limit, exclude, external, plan, origins, clock, quoteSequence);
      var after := CarryOut(DeskOf(c, s), req, external, plan, origins);
      var sequence := HighestSequence(plan.restingAfter, quoteSequence);
      var hooks := CollectHooks(s, plan.slices);
      if deferVirtualFills {
        ReservationStaysInStep(c, s, after, sequence, hooks, clock, kept, undone);
        Become(Reserve(c, s, after, sequence, hooks));
        kept := kept[s := BareDesk(after)];
        return Traded(plan, Some(c.issued)), origins;
      }
      DeskStaysInStep(c, s, after, sequence, clock, kept, undone);
      FiringStaysInStep(WithDesk(c, s, after, sequence), c.fired + hooks, clock, kept[s := BareDesk(after)],
                        undone[s := BareDesk(after)]);
      Become(WithDesk(c, s, after, sequence).(fired := c.fired + hooks));
      kept, undone := kept[s := BareDesk(after)], undone[s := BareDesk(after)];
      return Traded(plan, None), origins;
    }

    /** Delivers to a symbol that is no longer reserved what has waited for it. */
    method DeliverWaiting(s: string, changes: seq<Change>, at: nat -> real, ghost start: Desk)
      requires Valid() && s !in reservedSymbols && At(kept, s) == start == At(undone, s)
      requires forall i: nat :: clock <= at(i) <= at(i + 1)
      modifies this
      ensures Valid() && View() == DeliverAll(old(View()), s, changes, at)
      ensures At(kept, s) == ApplyAllBare(start, changes) == At(undone, s)
      ensures reservedSymbols == old(reservedSymbols) && reservedFills == old(reservedFills) && fired == old(fired)
      ensures OnlyAbout(View(), old(View()), s)
      ensures SerialOnlyAbout(kept, old(kept), s) && SerialOnlyAbout(undone, old(undone), s)
    {
      hide Sound, BareDesk, ApplyBare, ApplyAllBare, Deliver, DeskOf, DeliverAll;
      ghost var c := View();
      NothingDelivered(c, s, changes, at);
      NothingApplied(start, changes);
      for k := 0 to |changes|
        invariant Valid() && clock <= at(k) && View() == DeliverAll(c, s, changes[..k], at)
        invariant At(kept, s) == ApplyAllBare(start, changes[..k]) == At(undone, s)
        invariant reservedSymbols == old(reservedSymbols) && reservedFills == old(reservedFills) && fired == old(fired)
        invariant OnlyAbout(View(), c, s)
        invariant SerialOnlyAbout(kept, old(kept), s) && SerialOnlyAbout(undone, old(undone), s)
      {
        assert changes[..k + 1] == changes[..k] + [changes[k]];
        DeliverAllGrows(c, s, changes[..k], changes[k], at);
        ApplyAllBareGrows(start, changes[..k], changes[k]);
        DeliveryIsLocal(View(), s, changes[k], at(k));
        LocalSteps(c, View(), Deliver(View(), s, changes[k], at(k)), s);
        Receive(s, changes[k], at(k));
      }
      assert changes[..|changes|] == changes;
    }

    /** Commits or rolls back a reserved execution; a handle that is no longer open releases nothing. */
    method ReleaseExecution(handle: nat, commit: bool, at: nat -> real) returns (released: bool)
      requires Valid() && forall i: nat :: clock <= at(i) <= at(i + 1)
      modifies this
      ensures Valid()
      ensures released <==> handle in old(reservedFills)
      ensures !released ==> View() == old(View()) && kept == old(kept) && undone == old(undone)
      ensures released ==>
        old(reservedFills)[handle] in old(reservedSymbols) && View() == Release(old(View()), handle, commit, at)
      ensures released ==>
        var s := old(reservedFills)[handle];
        && s in old(reservedSymbols) && s !in reservedSymbols && handle !in reservedFills
        && BareDesk(DeskOf(View(), s)) == At(old(if commit then kept else undone), s) == At(kept, s) == At(undone, s)
        && fired == old(fired) + (if commit then old(reservedSymbols)[s].hooks else [])
        && OnlyAbout(View(), old(View()), s) && SerialOnlyAbout(kept, old(kept), s)
        && SerialOnlyAbout(undone, old(undone), s)
    {
      hide Sound, BareDesk, ApplyBare, ApplyAllBare, Deliver, Close, DeliverAll;
      if handle !in reservedFills { return false; }
      var c, s := View(), reservedFills[handle];
      HandleIsReserved(c, clock, kept, undone, handle);
      var changes := reservedSymbols[s].deferred;
      ghost var start := BareDesk(if commit then DeskOf(c, s) else c.reserved[s].before);
      ClosingStaysInStep(c, handle, commit, clock, kept, undone);
      CloseIsLocal(c, handle, commit);
      ClosedFields(c, handle, commit);
      Become(Close(c, handle, commit));
      kept, undone := kept[s := start], undone[s := start];
      ghost var closed := View();
      DeliverWaiting(s, changes, at, start);
      LocalSteps(c, closed, View(), s);
      SoundIsStamped(View(), clock, kept, undone, s);
      return true;
    }

    /**
     Removes expired virtual orders from every symbol that has a book and passes the filter. Beside
     serial engines that prune all symbols passing the filter, the engine is in step afterwards if and
     only if nothing expired waits for a symbol without a book.
     */
    method PruneExpiredVirtualOrders(tick: int, matches: string -> bool)
      requires Valid()
      modifies this
      ensures Valid() && clock == old(clock) && fired == old(fired)
      ensures forall s :: SameAt(View(), if matches(s) then PruneOne(old(View()), s, tick, clock) else old(View()), s)
      ensures PrunedSerials(kept, old(kept), old(realBooks).Keys, matches, tick)
      ensures PrunedSerials(undone, old(undone), old(realBooks).Keys, matches, tick)
      ensures Sound(View(), clock, PrunedAll(old(kept), matches, tick), PrunedAll(old(undone), matches, tick))
        <==> forall s :: matches(s) ==> s in old(realBooks) || NothingWaitsExpired(old(View()), s, tick)
    {
      hide Sound, ApplyBare, Apply, PrunedSerials, PrunedBooks, Deliver;
      var todo := realBooks.Keys;
      ghost var c, all := View(), realBooks.Keys;
      PruneStarts(c, kept, undone, all, matches, tick, clock);
      while todo != {}
        invariant Valid() && clock == old(clock) && fired == old(fired) && todo <= all
        invariant PrunedBooks(View(), c, todo, matches, tick, clock)
        invariant PrunedSerials(kept, old(kept), all - todo, matches, tick)
        invariant PrunedSerials(undone, old(undone), all - todo, matches, tick)
        decreases |todo|
      {
        var s :| s in todo;
        PruneStep(View(), c, todo, s, matches, tick, clock);
        PruneSerialStep(kept, old(kept), all - todo, s, matches, tick);
        PruneSerialStep(undone, old(undone), all - todo, s, matches, tick);
        assert all - todo + {s} == all - (todo - {s});
        todo := todo - {s};
        if matches(s) { PruneSymbol(s, tick); }
      }
      assert all - {} == all;
      PruneEnds(View(), c, matches, tick, clock);
      PrunesStayInStepExactlyWhen(View(), c, matches, tick, clock, old(kept), old(undone), kept, undone);
    }

    method PruneSymbol(s: string, tick: int)
      requires Valid()
      modifies this
      ensures Valid() && clock == old(clock) && fired == old(fired)
      ensures View() == Deliver(old(View()), s, Prune(tick), clock)
      ensures kept == old(kept)[s := ApplyBare(At(old(kept), s), Prune(tick))]
      ensures undone == old(undone)[s := ApplyBare(At(old(undone), s), Prune(tick))]
    {
      hide Sound, ApplyBare, Apply;
      DeliveryIsLocal(View(), s, Prune(tick), clock);
      DeliveryStaysInStep(View(), s, Prune(tick), clock, clock, kept, undone);
      PruneNeedsNoClock(View(), s, tick, clock, 0.0);
      TakeChange(s, Prune(tick), 0.0);
      kept := kept[s := ApplyBare(At(kept, s), Prune(tick))];
      undone := undone[s := ApplyBare(At(undone, s), Prune(tick))];
    }
  }

  lemma PruneNeedsNoClock(c: Core, s: string, tick: int, now: real, later: real)
    ensures Deliver(c, s, Prune(tick), now) == Deliver(c, s, Prune(tick), later)
  {
  }

  lemma NothingDelivered(c: Core, s: string, changes: seq<Change>, at: nat -> real)
    ensures DeliverAll(c, s, changes[..0], at) == c
  {
  }

  lemma NothingApplied(d: Desk, changes: seq<Change>)
    ensures ApplyAllBare(d, changes[..0]) == d
  {
  }

  lemma ClosedFields(c: Core, handle: nat, commit: bool)
    requires handle in c.handles && c.handles[handle] in c.reserved
    ensures var v := Close(c, handle, commit);
      && handle !in v.handles && c.handles[handle] !in v.reserved
      && v.fired == c.fired + if commit then c.reserved[c.handles[handle]].hooks else []
  {
  }
}
