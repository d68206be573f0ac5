/**
 A prune of expired virtual orders visits the symbols that have a book. A reserved symbol whose first
 orders still wait has none yet, so the prune passes it by, while a serial engine would find those
 orders and remove them. `PruneStaysInStepExactlyWhen` says when that is harmless, `PruneComesTooEarly`
 shows that it need not be.
 */
module Prunes {
  import opened Wrappers
  import opened Liquidity
  import opened QuoteBook
  import opened StampBlind
  import opened Reservations

  /** What a prune does about a symbol that passes its filter. */
  function PruneOne(c: Core, s: string, tick: int, now: real): Core {
    if s in c.realBooks then Deliver(c, s, Prune(tick), now) else c
  }

  /** What it does to a serial engine, which has every order in its books. */
  function Pruned(m: Serial, s: string, tick: int): Serial { m[s := ApplyBare(At(m, s), Prune(tick))] }

  /** A prune is idle exactly when nothing has expired. */
  lemma {:induction false} PruneIsIdle(rows: seq<Row>, tick: int)
    ensures |Unexpired(rows, tick)| <= |rows|
    ensures Unexpired(rows, tick) == rows <==> forall i :: 0 <= i < |rows| ==> !Expired(rows[i], tick)
  {
    if rows != [] {
      PruneIsIdle(rows[1..], tick);
      var rest := rows[1..];
      assert forall i :: 1 <= i < |rows| ==> rows[i] == rest[i - 1];
      assert forall i :: 0 <= i < |rest| ==> rest[i] == rows[i + 1];
      if !Expired(rows[0], tick) && Unexpired(rows, tick) == rows {
        assert Unexpired(rest, tick) == rows[1..];
      }
    }
  }

  ghost predicate NothingExpired(d: Desk, tick: int) {
    d.resting.Some? ==>
      && (forall i :: 0 <= i < |d.resting.value.bids| ==> !Expired(d.resting.value.bids[i], tick))
      && (forall i :: 0 <= i < |d.resting.value.asks| ==> !Expired(d.resting.value.asks[i], tick))
  }

  lemma IdlePrune(d: Desk, tick: int)
    ensures ApplyBare(d, Prune(tick)) == d <==> NothingExpired(d, tick)
  {
    if d.resting.Some? {
      PruneIsIdle(d.resting.value.bids, tick);
      PruneIsIdle(d.resting.value.asks, tick);
    }
  }

  /**
   The orders that wait for the open execution of `s`, on the books they would find either way, hold
   nothing expired.
   */
  ghost predicate NothingWaitsExpired(c: Core, s: string, tick: int) {
    s in c.reserved ==>
      && NothingExpired(ApplyAllBare(BareDesk(DeskOf(c, s)), c.reserved[s].deferred), tick)
      && NothingExpired(ApplyAllBare(BareDesk(c.reserved[s].before), c.reserved[s].deferred), tick)
  }

  /**
   The engine stays in step with serial engines that prune, if and only if the symbol has a book or
   nothing that waits for it has expired.
   */
  lemma PruneStaysInStepExactlyWhen(c: Core, s: string, tick: int, now: real, kept: Serial, undone: Serial)
    requires Sound(c, now, kept, undone)
    ensures Sound(PruneOne(c, s, tick, now), now, Pruned(kept, s, tick), Pruned(undone, s, tick))
      <==> s in c.realBooks || NothingWaitsExpired(c, s, tick)
    ensures InStep(PruneOne(c, s, tick, now), s, Pruned(kept, s, tick), Pruned(undone, s, tick))
      <==> s in c.realBooks || NothingWaitsExpired(c, s, tick)
  {
    hide ApplyBare, BareDesk, StampedDesk, NothingExpired, ApplyAllBare, StampsOk, Paired;
    var k, u := Pruned(kept, s, tick), Pruned(undone, s, tick);
    assert InStep(c, s, kept, undone);
    IdlePrune(At(kept, s), tick);
    IdlePrune(At(undone, s), tick);
    if s in c.realBooks {
      DeliveryStaysInStep(c, s, Prune(tick), now, now, kept, undone);
    } else {
      NoBookNothingExpired(c, s, tick);
      if NothingWaitsExpired(c, s, tick) {
        forall x
          ensures InStep(c, x, k, u)
        {
          assert InStep(c, x, kept, undone) && At(k, x) == At(kept, x) && At(u, x) == At(undone, x);
        }
      } else {
        assert At(k, s) != At(kept, s) || At(u, s) != At(undone, s);
        assert !InStep(c, s, k, u);
      }
    }
  }

  /** Serial engines prune every symbol that passes the filter. */
  function PrunedAll(m: Serial, matches: string -> bool, tick: int): Serial {
    map s | s in m :: if matches(s) then ApplyBare(m[s], Prune(tick)) else m[s]
  }

  lemma PrunedAllAt(m: Serial, matches: string -> bool, tick: int, s: string)
    ensures At(PrunedAll(m, matches, tick), s) == if matches(s) then At(Pruned(m, s, tick), s) else At(m, s)
  {
  }

  /** The two engines agree about symbol `s`. */
  ghost predicate SameAt(v: Core, c: Core, s: string) {
    && DeskOf(v, s) == DeskOf(c, s) && (s in v.reserved <==> s in c.reserved)
    && (s in c.reserved ==> v.reserved[s] == c.reserved[s])
  }

  lemma SameStep(v: Core, c: Core, s: string, k: Serial, u: Serial, kept: Serial, undone: Serial)
    requires SameAt(v, c, s) && At(k, s) == At(kept, s) && At(u, s) == At(undone, s)
    ensures InStep(v, s, k, u) <==> InStep(c, s, kept, undone)
  {
    hide ApplyAllBare, BareDesk, DeskOf;
  }

  /**
   The whole prune: in step with serial engines that prune all matching symbols, if and only if
   every one of them is harmless.
   */
  lemma PrunesStayInStepExactlyWhen(v: Core, c: Core, matches: string -> bool, tick: int, now: real,
                                    kept: Serial, undone: Serial, k: Serial, u: Serial)
    requires Sound(c, now, kept, undone) && Sound(v, now, k, u)
    requires forall s :: SameAt(v, if matches(s) then PruneOne(c, s, tick, now) else c, s)
    ensures Sound(v, now, PrunedAll(kept, matches, tick), PrunedAll(undone, matches, tick))
      <==> forall s :: matches(s) ==> s in c.realBooks || NothingWaitsExpired(c, s, tick)
  {
    hide ApplyBare, SameAt, InStep, NothingWaitsExpired, PruneOne, Pruned, PrunedAll, StampsOk, Paired;
    var K, U := PrunedAll(kept, matches, tick), PrunedAll(undone, matches, tick);
    forall s
      ensures InStep(v, s, K, U) <==> (matches(s) ==> s in c.realBooks || NothingWaitsExpired(c, s, tick))
    {
      PrunedAllAt(kept, matches, tick, s);
      PrunedAllAt(undone, matches, tick, s);
      if matches(s) {
        SameStep(v, PruneOne(c, s, tick, now), s, K, U, Pruned(kept, s, tick), Pruned(undone, s, tick));
        PruneStaysInStepExactlyWhen(c, s, tick, now, kept, undone);
      } else {
        SameStep(v, c, s, K, U, kept, undone);
        assert InStep(c, s, kept, undone);
      }
    }
  }

  lemma NoBookNothingExpired(c: Core, s: string, tick: int)
    requires s !in c.realBooks
    ensures NothingExpired(BareDesk(DeskOf(c, s)), tick)
  {
  }

  // ---- A symbol that has quotes but no orders yet ----

  const QUOTED := Desk(None, Some(Levels([], [Quote(1_000, 5, None, None)], false, false)))

  const WAITING := PlaceVirtual(None, Buy, 900, 10, 3, None, None)

  const EMPTY := Core(map[], map[], map[], map[], 0, 0.0, [])

  /** Its execution is reserved, and then a virtual order arrives. */
  function WithWaitingOrder(s: string): Core {
    Deliver(Reserve(WithDesk(EMPTY, s, QUOTED, 0.0), s, QUOTED, 0.0, []), s, WAITING, 0.0)
  }

  lemma EmptyIsSound()
    ensures Sound(EMPTY, 0.0, map[], map[])
  {
  }

  lemma WaitingIsSound(s: string) returns (kept: Serial, undone: Serial)
    ensures var c := WithWaitingOrder(s);
      Sound(c, 0.0, kept, undone) && s in c.reserved && c.handles == map[0 := s] && s !in c.realBooks
    ensures At(kept, s) == At(undone, s) == ApplyBare(QUOTED, WAITING)
  {
    hide Sound, ApplyBare, Apply;
    EmptyIsSound();
    assert BareQuotes(QUOTED.synthetic.value.asks) == QUOTED.synthetic.value.asks && BareQuotes([]) == [];
    DeskStaysInStep(EMPTY, s, QUOTED, 0.0, 0.0, map[], map[]);
    var c := WithDesk(EMPTY, s, QUOTED, 0.0);
    kept, undone := map[s := QUOTED], map[s := QUOTED];
    ReservationStaysInStep(c, s, QUOTED, 0.0, [], 0.0, kept, undone);
    ReservedDesks(c, s, QUOTED, 0.0, []);
    DeliveryStaysInStep(Reserve(c, s, QUOTED, 0.0, []), s, WAITING, 0.0, 0.0, kept[s := QUOTED], undone);
    kept, undone := kept[s := QUOTED][s := ApplyBare(QUOTED, WAITING)], undone[s := ApplyBare(QUOTED, WAITING)];
  }

  /** Placed and then pruned, the order is gone; in the engine, released either way, it rests past its tick. */
  lemma PruneComesTooEarly(s: string, commit: bool, at: nat -> real)
    requires forall i: nat :: 0.0 <= at(i) <= at(i + 1)
    ensures var c := PruneOne(WithWaitingOrder(s), s, 3, 0.0);
      && 0 in c.handles && c.handles[0] == s && s in c.reserved
      && BareDesk(DeskOf(Release(c, 0, commit, at), s)) != ApplyAllBare(QUOTED, [WAITING, Prune(3)])
  {
    hide Sound, BareDesk, Release, WithWaitingOrder;
    var c := WithWaitingOrder(s);
    var kept, undone := WaitingIsSound(s);
    ReleaseReachesSerial(c, 0, commit, at, 0.0, kept, undone);
    PlacedThenPruned();
  }

  lemma PlacedThenPruned()
    ensures ApplyAllBare(QUOTED, [WAITING, Prune(3)]) != ApplyBare(QUOTED, WAITING)
  {
    var row := NewRow(WAITING).value;
    assert [WAITING, Prune(3)][..1] == [WAITING] && [WAITING][..0] == [];
    assert Behind([], row, false) == [row];
    assert ApplyBare(QUOTED, WAITING) == QUOTED.(resting := Some(Book([row], [])));
    assert ApplyAllBare(QUOTED, [WAITING]) == ApplyBare(QUOTED, WAITING);
    assert Unexpired([row], 3) == [] by { assert [row][1..] == []; }
  }
}
