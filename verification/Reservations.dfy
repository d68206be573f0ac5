/**
 The reservation protocol as a state machine over values. While an execution of a symbol is
 reserved, changes for that symbol queue up; committing or rolling back applies them. Beside the
 engine's state run two serial engines that never make anybody wait: in `kept` every open execution
 is taken to stand, in `undone` to be undone. `Sound` says what the engine's books owe to them.
 */
module Reservations {
  import opened Wrappers
  import opened Liquidity
  import opened QuoteBook
  import opened StampBlind

  /** The report of a fill of a virtual order. */
  datatype Hook = Hook(mmId: Option<string>, tag: Option<string>, orderId: Option<string>, symbol: string, side: Side,
                       qty: int, price: int)

  datatype Reservation = Reservation(handle: nat, before: Desk, hooks: seq<Hook>, deferred: seq<Change>)

  /** `handles` maps each open handle to its symbol; `issued` counts the handles given out. */
  datatype Core = Core(realBooks: map<string, Book>, orderBooks: map<string, Levels>, reserved: map<string,
                       Reservation>,
                       handles: map<nat, string>, issued: nat, counter: real, fired: seq<Hook>)

  function DeskOf(c: Core, s: string): Desk {
    Desk(if s in c.realBooks then Some(c.realBooks[s]) else None,
         if s in c.orderBooks then Some(c.orderBooks[s]) else None)
  }

  function Put<T>(m: map<string, T>, s: string, v: Option<T>): map<string, T> {
    if v.Some? then m[s := v.value] else m - {s}
  }

  function WithDesk(c: Core, s: string, d: Desk, counter: real): Core {
    c.(realBooks := Put(c.realBooks, s, d.resting), orderBooks := Put(c.orderBooks, s, d.synthetic), counter := counter)
  }

  lemma DeskIsWritten(c: Core, s: string, d: Desk, counter: real)
    ensures DeskOf(WithDesk(c, s, d, counter), s) == d
    ensures forall x :: x != s ==> DeskOf(WithDesk(c, s, d, counter), x) == DeskOf(c, x)
  {
  }

  function Defer(c: Core, s: string, change: Change): Core
    requires s in c.reserved
  {
    c.(reserved := c.reserved[s := c.reserved[s].(deferred := c.reserved[s].deferred + [change])])
  }

  /** A change arrives: it waits for the open execution of its symbol, or happens at once. */
  function Deliver(c: Core, s: string, change: Change, now: real): Core {
    if s in c.reserved then Defer(c, s, change)
    else
      var r := Apply(DeskOf(c, s), change, now, c.counter);
      WithDesk(c, s, r.desk, r.counter)
  }

  type Serial = map<string, Desk>

  function At(m: Serial, s: string): Desk { if s in m then m[s] else Desk(None, None) }

  /** The books of `s` are those of the serial engines, up to stamps and to the changes that still wait. */
  ghost predicate InStep(c: Core, s: string, kept: Serial, undone: Serial) {
    if s in c.reserved then
      && At(kept, s) == ApplyAllBare(BareDesk(DeskOf(c, s)), c.reserved[s].deferred)
      && At(undone, s) == ApplyAllBare(BareDesk(c.reserved[s].before), c.reserved[s].deferred)
    else At(kept, s) == BareDesk(DeskOf(c, s)) == At(undone, s)
  }

  /** Open handles and reserved symbols belong to each other, one to one. */
  ghost predicate Paired(c: Core) {
    && (forall s :: s in c.reserved ==>
        c.reserved[s].handle in c.handles && c.handles[c.reserved[s].handle] == s && c.reserved[s].handle < c.issued)
    && (forall h :: h in c.handles ==> c.handles[h] in c.reserved && c.reserved[c.handles[h]].handle == h)
  }

  ghost predicate StampsOk(c: Core, now: real) {
    && now >= 0.0 && c.counter >= 0.0
    && (forall s :: StampedDesk(DeskOf(c, s), now, c.counter))
    && (forall s :: s in c.reserved ==> StampedDesk(c.reserved[s].before, now, c.counter))
  }

  ghost predicate Sound(c: Core, now: real, kept: Serial, undone: Serial) {
    Paired(c) && StampsOk(c, now) && forall s :: InStep(c, s, kept, undone)
  }

  lemma ApplyAllBareGrows(d: Desk, changes: seq<Change>, change: Change)
    ensures ApplyAllBare(d, changes + [change]) == ApplyBare(ApplyAllBare(d, changes), change)
  {
    assert (changes + [change])[..|changes|] == changes;
  }

  lemma StampsStay(c: Core, s: string, d: Desk, now: real, later: real, counter: real)
    requires StampsOk(c, now) && now <= later && c.counter <= counter && StampedDesk(d, later, counter)
    ensures StampsOk(WithDesk(c, s, d, counter), later)
  {
    hide StampedDesk;
    var v := WithDesk(c, s, d, counter);
    DeskIsWritten(c, s, d, counter);
    forall x
      ensures StampedDesk(DeskOf(v, x), later, counter)
      ensures x in v.reserved ==> StampedDesk(v.reserved[x].before, later, counter)
    {
      ClocksAdvance(DeskOf(c, x), now, c.counter, later, counter);
      if x in c.reserved { ClocksAdvance(c.reserved[x].before, now, c.counter, later, counter); }
    }
  }

  lemma TimePasses(c: Core, now: real, later: real)
    requires StampsOk(c, now) && now <= later
    ensures StampsOk(c, later)
  {
    hide StampedDesk;
    forall x
      ensures StampedDesk(DeskOf(c, x), later, c.counter)
      ensures x in c.reserved ==> StampedDesk(c.reserved[x].before, later, c.counter)
    {
      ClocksAdvance(DeskOf(c, x), now, c.counter, later, c.counter);
      if x in c.reserved { ClocksAdvance(c.reserved[x].before, now, c.counter, later, c.counter); }
    }
  }

  /** What is true of a symbol stays true when nothing of it changes. */
  lemma OtherStaysInStep(c: Core, v: Core, x: string, kept: Serial, undone: Serial, k: Serial, u: Serial)
    requires InStep(c, x, kept, undone) && DeskOf(v, x) == DeskOf(c, x) && At(k, x) == At(kept, x)
    requires At(u, x) == At(undone, x)
    requires (x in v.reserved <==> x in c.reserved) && (x in c.reserved ==> v.reserved[x] == c.reserved[x])
    ensures InStep(v, x, k, u)
  {
  }

  lemma DeferralStaysInStep(c: Core, s: string, change: Change, now: real, kept: Serial, undone: Serial)
    requires Sound(c, now, kept, undone) && s in c.reserved
    ensures Sound(Defer(c, s, change), now, kept[s := ApplyBare(At(kept, s), change)],
                  undone[s := ApplyBare(At(undone, s), change)])
  {
    hide ApplyBare, BareDesk, StampedDesk, InStep;
    var v := Defer(c, s, change);
    var k, u := kept[s := ApplyBare(At(kept, s), change)], undone[s := ApplyBare(At(undone, s), change)];
    assert forall x :: DeskOf(v, x) == DeskOf(c, x);
    forall x
      ensures InStep(v, x, k, u)
    {
      assert InStep(c, x, kept, undone);
      if x == s { DeferredInStep(c, s, change, kept, undone); } else { OtherStaysInStep(c, v, x, kept, undone, k, u); }
    }
  }

  lemma DeferredInStep(c: Core, s: string, change: Change, kept: Serial, undone: Serial)
    requires InStep(c, s, kept, undone) && s in c.reserved
    ensures InStep(Defer(c, s, change), s, kept[s := ApplyBare(At(kept, s), change)],
                   undone[s := ApplyBare(At(undone, s), change)])
  {
    hide ApplyBare, BareDesk;
    ApplyAllBareGrows(BareDesk(DeskOf(c, s)), c.reserved[s].deferred, change);
    ApplyAllBareGrows(BareDesk(c.reserved[s].before), c.reserved[s].deferred, change);
    assert DeskOf(Defer(c, s, change), s) == DeskOf(c, s);
  }

  /** The books of an unreserved symbol become `d`. */
  lemma DeskStaysInStep(c: Core, s: string, d: Desk, counter: real, now: real, kept: Serial, undone: Serial)
    requires Sound(c, now, kept, undone) && s !in c.reserved && c.counter <= counter && StampedDesk(d, now, counter)
    ensures Sound(WithDesk(c, s, d, counter), now, kept[s := BareDesk(d)], undone[s := BareDesk(d)])
  {
    hide BareDesk, StampedDesk, InStep, StampsOk, WithDesk, DeskOf, Put;
    var v := WithDesk(c, s, d, counter);
    WritingKeepsRest(c, s, d, counter);
    DeskIsWritten(c, s, d, counter);
    StampsStay(c, s, d, now, now, counter);
    var k, u := kept[s := BareDesk(d)], undone[s := BareDesk(d)];
    forall x
      ensures InStep(v, x, k, u)
    {
      if x == s { WrittenInStep(v, s, d, kept, undone); } else { OtherStaysInStep(c, v, x, kept, undone, k, u); }
    }
  }

  lemma WrittenInStep(v: Core, s: string, d: Desk, kept: Serial, undone: Serial)
    requires DeskOf(v, s) == d && s !in v.reserved
    ensures InStep(v, s, kept[s := BareDesk(d)], undone[s := BareDesk(d)])
  {
  }

  lemma WritingKeepsRest(c: Core, s: string, d: Desk, counter: real)
    ensures var v := WithDesk(c, s, d, counter);
      && v.reserved == c.reserved && v.handles == c.handles && v.issued == c.issued
      && v.fired == c.fired && v.counter == counter
  {
  }

  /** An arriving change: the serial engines take it at once, and the engine stays in step with both. */
  lemma DeliveryStaysInStep(c: Core, s: string, change: Change, now: real, later: real, kept: Serial, undone: Serial)
    requires Sound(c, now, kept, undone) && now <= later
    ensures Sound(Deliver(c, s, change, later), later, kept[s := ApplyBare(At(kept, s), change)],
                  undone[s := ApplyBare(At(undone, s), change)])
  {
    hide Apply, ApplyBare, BareDesk, StampedDesk, WithDesk, DeskOf, Defer;
    TimePasses(c, now, later);
    assert InStep(c, s, kept, undone);
    assert Sound(c, later, kept, undone);
    if s in c.reserved {
      DeferralStaysInStep(c, s, change, later, kept, undone);
    } else {
      ChangeIsStampBlind(DeskOf(c, s), change, later, c.counter);
      var r := Apply(DeskOf(c, s), change, later, c.counter);
      DeskStaysInStep(c, s, r.desk, r.counter, later, kept, undone);
    }
  }

  /** Reports are no part of the books. */
  lemma FiringStaysInStep(c: Core, fired: seq<Hook>, now: real, kept: Serial, undone: Serial)
    requires Sound(c, now, kept, undone)
    ensures Sound(c.(fired := fired), now, kept, undone)
  {
    hide BareDesk, StampedDesk, InStep;
    var v := c.(fired := fired);
    forall x
      ensures DeskOf(v, x) == DeskOf(c, x) && InStep(v, x, kept, undone)
    {
      OtherStaysInStep(c, v, x, kept, undone, kept, undone);
    }
  }

  /** The engine with the execution's books in place and its reservation open. */
  function Reserve(c: Core, s: string, d: Desk, counter: real, hooks: seq<Hook>): Core {
    WithDesk(c, s, d, counter).(reserved := c.reserved[s := Reservation(c.issued, DeskOf(c, s), hooks, [])],
                                handles := c.handles[c.issued := s], issued := c.issued + 1)
  }

  lemma ReservationStaysInStep(c: Core, s: string, d: Desk, counter: real, hooks: seq<Hook>, now: real, kept: Serial,
                               undone: Serial)
    requires Sound(c, now, kept, undone) && s !in c.reserved && c.counter <= counter && StampedDesk(d, now, counter)
    ensures Sound(Reserve(c, s, d, counter, hooks), now, kept[s := BareDesk(d)], undone)
  {
    hide BareDesk, StampedDesk, InStep, WithDesk, Paired, StampsOk;
    var v := Reserve(c, s, d, counter, hooks);
    ReservedDesks(c, s, d, counter, hooks);
    ReservedStamps(c, s, d, counter, hooks, now);
    ReservingKeepsPairs(c, s, d, counter, hooks);
    var k := kept[s := BareDesk(d)];
    forall x
      ensures InStep(v, x, k, undone)
    {
      assert InStep(c, x, kept, undone);
      if x == s {
        ReservedInStep(c, s, d, counter, hooks, kept, undone);
      } else {
        OtherStaysInStep(c, v, x, kept, undone, k, undone);
      }
    }
  }

  lemma ReservedDesks(c: Core, s: string, d: Desk, counter: real, hooks: seq<Hook>)
    ensures DeskOf(Reserve(c, s, d, counter, hooks), s) == d
    ensures forall x :: x != s ==> DeskOf(Reserve(c, s, d, counter, hooks), x) == DeskOf(c, x)
    ensures Reserve(c, s, d, counter, hooks).reserved == c.reserved[s := Reservation(c.issued, DeskOf(c, s), hooks, [])]
    ensures Reserve(c, s, d, counter, hooks).counter == counter
  {
  }

  lemma ReservedStamps(c: Core, s: string, d: Desk, counter: real, hooks: seq<Hook>, now: real)
    requires StampsOk(c, now) && c.counter <= counter && StampedDesk(d, now, counter)
    ensures StampsOk(Reserve(c, s, d, counter, hooks), now)
  {
    hide StampedDesk, DeskOf, WithDesk;
    var v := Reserve(c, s, d, counter, hooks);
    ReservedDesks(c, s, d, counter, hooks);
    forall x
      ensures StampedDesk(DeskOf(v, x), now, counter)
      ensures x in v.reserved ==> StampedDesk(v.reserved[x].before, now, counter)
    {
      ClocksAdvance(DeskOf(c, x), now, c.counter, now, counter);
      if x in c.reserved { ClocksAdvance(c.reserved[x].before, now, c.counter, now, counter); }
    }
  }

  lemma ReservedInStep(c: Core, s: string, d: Desk, counter: real, hooks: seq<Hook>, kept: Serial, undone: Serial)
    requires InStep(c, s, kept, undone) && s !in c.reserved
    ensures InStep(Reserve(c, s, d, counter, hooks), s, kept[s := BareDesk(d)], undone)
  {
    hide BareDesk, WithDesk;
    ReservedDesks(c, s, d, counter, hooks);
  }

  lemma ReservingKeepsPairs(c: Core, s: string, d: Desk, counter: real, hooks: seq<Hook>)
    requires Paired(c) && s !in c.reserved
    ensures Paired(Reserve(c, s, d, counter, hooks))
  {
    assert forall h :: h in c.handles ==> h < c.issued;
    WritingKeepsRest(c, s, d, counter);
    hide WithDesk;
  }

  /**
   The reservation closed: the books are the execution's or the old ones, and the waiting changes
   are still to come.
   */
  function Close(c: Core, handle: nat, commit: bool): Core
    requires handle in c.handles && c.handles[handle] in c.reserved
  {
    var s := c.handles[handle];
    var r := c.reserved[s];
    var restored := if commit then c else WithDesk(c, s, r.before, c.counter);
    restored.(reserved := c.reserved - {s}, handles := c.handles - {handle},
              fired := c.fired + if commit then r.hooks else [])
  }

  /** Closed, the engine is in step with serial engines that have seen none of the waiting changes. */
  lemma ClosingStaysInStep(c: Core, handle: nat, commit: bool, now: real, kept: Serial, undone: Serial)
    requires Sound(c, now, kept, undone) && handle in c.handles && c.handles[handle] in c.reserved
    ensures var s := c.handles[handle];
      var start := BareDesk(if commit then DeskOf(c, s) else c.reserved[s].before);
      && Sound(Close(c, handle, commit), now, kept[s := start], undone[s := start])
      && s !in Close(c, handle, commit).reserved
      && ApplyAllBare(start, c.reserved[s].deferred) == At(if commit then kept else undone, s)
  {
    hide BareDesk, StampedDesk, ApplyAllBare;
    var s := c.handles[handle];
    var before := c.reserved[s].before;
    var v := Close(c, handle, commit);
    var start := BareDesk(if commit then DeskOf(c, s) else before);
    DeskIsWritten(c, s, before, c.counter);
    StampsStay(c, s, before, now, now, c.counter);
    assert InStep(c, s, kept, undone);
    forall x
      ensures DeskOf(v, x) == if x == s && !commit then before else DeskOf(c, x)
      ensures InStep(v, x, kept[s := start], undone[s := start])
    {
      assert InStep(c, x, kept, undone);
    }
  }

  function DeliverAll(c: Core, s: string, changes: seq<Change>, at: nat -> real): Core {
    if changes == [] then c
    else
      var n := |changes| - 1;
      Deliver(DeliverAll(c, s, changes[..n], at), s, changes[n], at(n))
  }

  lemma DeliverAllGrows(c: Core, s: string, changes: seq<Change>, change: Change, at: nat -> real)
    ensures DeliverAll(c, s, changes + [change], at) == Deliver(DeliverAll(c, s, changes, at), s, change, at(|changes|))
  {
    hide Deliver;
    assert (changes + [change])[..|changes|] == changes;
  }

  /** A handle is released: the books are chosen, and what waited happens in its order. */
  function Release(c: Core, handle: nat, commit: bool, at: nat -> real): Core
    requires handle in c.handles && c.handles[handle] in c.reserved
  {
    DeliverAll(Close(c, handle, commit), c.handles[handle], c.reserved[c.handles[handle]].deferred, at)
  }

  lemma {:induction false} DeliveriesStayInStep(c: Core, s: string, changes: seq<Change>, at: nat -> real, now: real,
                                                start: Desk, kept: Serial, undone: Serial)
    returns (later: real)
    requires Sound(c, now, kept[s := start], undone[s := start]) && s !in c.reserved
    requires forall i: nat :: now <= at(i) <= at(i + 1)
    ensures var d, v := ApplyAllBare(start, changes), DeliverAll(c, s, changes, at);
      Sound(v, later, kept[s := d], undone[s := d]) && s !in v.reserved
    ensures now <= later && later == (if changes == [] then now else at(|changes| - 1))
  {
    later := now;
    if changes != [] {
      hide Sound, Apply, ApplyBare;
      var n := |changes| - 1;
      var before := DeliveriesStayInStep(c, s, changes[..n], at, now, start, kept, undone);
      later := at(n);
      assert before <= later;
      var d := ApplyAllBare(start, changes[..n]);
      DeliveryStaysInStep(DeliverAll(c, s, changes[..n], at), s, changes[n], before, later, kept[s := d],
                          undone[s := d]);
      assert kept[s := d][s := ApplyBare(d, changes[n])] == kept[s := ApplyBare(d, changes[n])];
      assert undone[s := d][s := ApplyBare(d, changes[n])] == undone[s := ApplyBare(d, changes[n])];
    }
  }

  /**
   After a commit the books are those of the serial engine that kept the execution, after a rollback
   those of the other one.
   */
  lemma ReleaseReachesSerial(c: Core, handle: nat, commit: bool, at: nat -> real, now: real, kept: Serial,
                             undone: Serial)
    requires Sound(c, now, kept, undone) && handle in c.handles && c.handles[handle] in c.reserved
    requires forall i: nat :: now <= at(i) <= at(i + 1)
    ensures BareDesk(DeskOf(Release(c, handle, commit, at), c.handles[handle]))
      == At(if commit then kept else undone, c.handles[handle])
  {
    hide BareDesk, ApplyAllBare, DeliverAll;
    var s := c.handles[handle];
    var start := BareDesk(if commit then DeskOf(c, s) else c.reserved[s].before);
    ClosingStaysInStep(c, handle, commit, now, kept, undone);
    var later := DeliveriesStayInStep(Close(c, handle, commit), s, c.reserved[s].deferred, at, now, start, kept,
                                      undone);
    var d := ApplyAllBare(start, c.reserved[s].deferred);
    assert InStep(Release(c, handle, commit, at), s, kept[s := d], undone[s := d]);
  }
}
