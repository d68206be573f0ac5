/**
 The ledger is written in groups of entries with one reference, each group balanced. Cutting it back
 between groups leaves a ledger that balances, and that can be cut again.
 */
module Compaction {
  import opened Numbers
  import opened Money
  import opened Accounts
  import opened Lots
  import opened Settlement
  import opened Trades
  import opened Commands

  const KEPT_ENTRIES := 4_000

  /** Every currency sums to zero. */
  ghost predicate Flat(ledger: seq<Entry>) { forall m :: Balance(ledger, m) == 0 }

  /** A place between two references, or an end of the ledger. */
  predicate CutAt(ledger: seq<Entry>, k: nat) {
    k == 0 || k == |ledger| || (k < |ledger| && ledger[k - 1].reference != ledger[k].reference)
  }

  /** Wherever the reference changes, everything before balances. */
  ghost predicate Grouped(ledger: seq<Entry>) {
    forall k: nat :: k <= |ledger| && CutAt(ledger, k) ==> Flat(ledger[..k])
  }

  lemma GroupedIsFlat(ledger: seq<Entry>)
    requires Grouped(ledger)
    ensures Flat(ledger)
  {
    assert CutAt(ledger, |ledger|) && ledger[..|ledger|] == ledger;
  }

  lemma GroupedGrows(ledger: seq<Entry>, more: seq<Entry>)
    requires Grouped(ledger) && Flat(more)
    requires forall i, j :: 0 <= i < |more| && 0 <= j < |more| ==> more[i].reference == more[j].reference
    ensures Grouped(ledger + more)
  {
    hide Balance;
    var all, n := ledger + more, |ledger|;
    forall k: nat | n < k < |all|
      ensures !CutAt(all, k)
    {
      assert all[k - 1] == more[k - 1 - n] && all[k] == more[k - n];
    }
    forall k: nat | k <= |all| && CutAt(all, k)
      ensures Flat(all[..k])
    {
      if k <= n {
        assert all[..k] == ledger[..k] && CutAt(ledger, k);
      } else {
        assert k == |all| && all[..k] == all;
        GroupedIsFlat(ledger);
        BothFlat(ledger, more);
      }
    }
  }

  lemma BothFlat(a: seq<Entry>, b: seq<Entry>)
    requires Flat(a) && Flat(b)
    ensures Flat(a + b)
  {
    forall m
      ensures Balance(a + b, m) == 0
    {
      BalanceAdds(a, b, m);
    }
  }

  lemma PairIsFlat(x: Entry, y: Entry)
    requires x.currency == y.currency && x.amount == -y.amount
    ensures Flat([x, y])
  {
    forall m
      ensures Balance([x, y], m) == 0
    {
      PairBalances([], x, y, m);
      assert [] + [x, y] == [x, y];
    }
  }

  lemma NoughtIsFlat(x: Entry)
    requires x.amount == 0
    ensures Flat([x])
  {
    forall m
      ensures Balance([x], m) == 0
    {
      assert [x][..0] == [];
    }
  }

  lemma PostingGroups(w: World, from: AccountId, to: AccountId, amount: int, reference: int)
    requires Grouped(w.ledger) && from in w.accounts && to in w.accounts
    requires PostCash(w, from, to, amount, reference).Success?
    ensures Grouped(PostCash(w, from, to, amount, reference).value.ledger)
  {
    hide Grouped;
    var x := Entry(w.nextId + 1, reference, from, to, -amount, from.market);
    var y := Entry(w.nextId + 2, reference, to, from, amount, from.market);
    PairIsFlat(x, y);
    GroupedGrows(w.ledger, [x, y]);
  }

  lemma PostingKeepsKeys(w: World, from: AccountId, to: AccountId, amount: int, reference: int)
    requires from in w.accounts && to in w.accounts && PostCash(w, from, to, amount, reference).Success?
    ensures PostCash(w, from, to, amount, reference).value.accounts.Keys == w.accounts.Keys
  {
  }

  lemma MarkGroups(w: World, o: Order, reference: int)
    requires Grouped(w.ledger)
    ensures Grouped(Marked(w, o, reference).ledger)
  {
    hide Grouped;
    var x := Entry(w.nextId + 1, reference, o.account, o.account, 0, o.account.market);
    NoughtIsFlat(x);
    GroupedGrows(w.ledger, [x]);
  }

  lemma ChangeGroups(w: World, o: Order, turnover: int, price: int, quantity: int, reference: int)
    requires o.account in w.accounts && House(Bank, o.account.market) in w.accounts
    requires PositionOk(PositionOf(w.accounts[o.account], o.symbol)) && w.accounts[o.account].leverage >= 1
    requires Grouped(w.ledger) && ChangePosition(w, o, turnover, price, quantity, reference).Success?
    ensures Grouped(ChangePosition(w, o, turnover, price, quantity, reference).value.ledger)
  {
    hide Grouped, PostCash, Marked, RemoveLots, Ceil;
    var a := w.accounts[o.account];
    var held, bank := PositionOf(a, o.symbol), House(Bank, o.account.market);
    match o.side
    case Buy =>
      var borrowed := turnover - Ceil(turnover, a.leverage);
      if borrowed > 0 {
        PostingGroups(w, bank, o.account, borrowed, reference);
        PostingKeepsKeys(w, bank, o.account, borrowed, reference);
      }
      var v := if borrowed > 0 then PostCash(w, bank, o.account, borrowed, reference).value else w;
      var lot := Lot(quantity, price, DayOf(w, a.id.market), borrowed);
      var u := WithAccount(v, Bought(v.accounts[o.account], o.symbol, held, lot));
      assert u.ledger == v.ledger;
      MarkGroups(u, o, reference);
    case Sell =>
      var r := RemoveLots(held.lots, quantity, a.id.market, a.actor, DayOf(w, a.id.market));
      if r.debt > 0 {
        PostingGroups(w, o.account, bank, r.debt, reference);
        PostingKeepsKeys(w, o.account, bank, r.debt, reference);
      }
      var v := if r.debt > 0 then PostCash(w, o.account, bank, r.debt, reference).value else w;
      var u := WithAccount(v, SoldOff(v.accounts[o.account], o.symbol, held, r));
      assert u.ledger == v.ledger;
      MarkGroups(u, o, reference);
    case Short => MarkAnyGroups(o, reference);
    case Cover => MarkAnyGroups(o, reference);
  }

  lemma MarkAnyGroups(o: Order, reference: int)
    ensures forall w: World :: Grouped(w.ledger) ==> Grouped(Marked(w, o, reference).ledger)
  {
    forall w: World | Grouped(w.ledger)
      ensures Grouped(Marked(w, o, reference).ledger)
    {
      MarkGroups(w, o, reference);
    }
  }

  lemma FinishGroups(w: World, o: Order, price: int, quantity: int, reference: int)
    requires o.account in w.accounts && House(FeeDesk, o.account.market) in w.accounts && o.filled + quantity > 0
    requires Grouped(w.ledger) && FinishSide(w, o, price, quantity, reference).Success?
    ensures Grouped(FinishSide(w, o, price, quantity, reference).value.world.ledger)
  {
    hide Grouped, PostCash, Fees;
    PostingGroups(w, o.account, House(FeeDesk, o.account.market), Fees(o.account.market, o.side, price * quantity),
                  reference);
  }

  lemma SwapGroups(w: World, buy: Order, sell: Order, price: int, quantity: int)
    requires Settleable(w, buy, sell, price, quantity) && buy.account != sell.account
    requires ValidateFill(w, buy, price, quantity).None? && ValidateFill(w, sell, price, quantity).None?
    requires Grouped(w.ledger) && Swap(w, buy, sell, price, quantity).Success?
    ensures Grouped(Swap(w, buy, sell, price, quantity).value.ledger)
  {
    hide Grouped, PostCash, ChangePosition, ValidateFill, AccountOk, WorldOk;
    var reference, turnover := w.nextId + 1, price * quantity;
    var w0 := w.(nextId := reference);
    HouseFacts(w, buy.account, buy.symbol);
    BuyerChanged(w, buy, sell, price, quantity);
    ChangeGroups(w0, buy, turnover, price, quantity, reference);
    var w1 := ChangePosition(w0, buy, turnover, price, quantity, reference).value;
    PostingGroups(w1, buy.account, sell.account, turnover, reference);
    MoneyMoved(w1, buy.account, sell.account, turnover, reference, sell.symbol);
    var w2 := PostCash(w1, buy.account, sell.account, turnover, reference).value;
    ChangeGroups(w2, sell, turnover, price, quantity, reference);
  }

  /** A settled trade writes whole groups. */
  lemma TradeGroups(w: World, buy: Order, sell: Order, price: int, quantity: int)
    requires Settleable(w, buy, sell, price, quantity) && Grouped(w.ledger)
    requires SettleTrade(w, buy, sell, price, quantity).Success?
    ensures Grouped(SettleTrade(w, buy, sell, price, quantity).value.world.ledger)
  {
    hide Grouped, ValidateFill, AccountOk, WorldOk, Swap, FinishSide, Swapped;
    SwapGroups(w, buy, sell, price, quantity);
    SwapKeepsWorld(w, buy, sell, price, quantity);
    var v := Swap(w, buy, sell, price, quantity).value;
    SwappedIsSound(w, buy, sell, price, quantity, v);
    HouseFacts(v, buy.account, buy.symbol);
    FinishGroups(v, buy, price, quantity, w.nextId + 1);
    FinishKeepsWorld(v, buy, price, quantity, w.nextId + 1);
    var b := FinishSide(v, buy, price, quantity, w.nextId + 1).value;
    HouseFacts(b.world, sell.account, sell.symbol);
    FinishGroups(b.world, sell, price, quantity, w.nextId + 1);
  }

  lemma RepayGroups(w: World, id: AccountId, amount: int)
    requires id in w.accounts && House(Bank, id.market) in w.accounts && Grouped(w.ledger)
    requires Repay(w, id, amount).Success?
    ensures Grouped(Repay(w, id, amount).value.ledger)
  {
    hide Grouped, PostCash, Available, PayPositions;
    PostingGroups(w.(nextId := w.nextId + 1), id, House(Bank, id.market), amount, w.nextId + 1);
  }

  lemma TransferGroups(w: World, owner: string, from: Market, to: Market, amount: int, inSeason: bool)
    requires WorldOk(w) && Owned(owner, from) in w.accounts && Owned(owner, to) in w.accounts
    requires Grouped(w.ledger) && Transfer(w, owner, from, to, amount, inSeason).Success?
    ensures Grouped(Transfer(w, owner, from, to, amount, inSeason).value.ledger)
  {
    hide Grouped, PostCash, Exchange, Available, AccountOk, WorldOk, SameSums, Sum, Balance, Richer;
    var c, reference := Exchange(amount, from, to), w.nextId + 1;
    var source, target := Owned(owner, from), Owned(owner, to);
    DesksExist(w, from);
    DesksExist(w, to);
    NextIdIsNoPart(w, reference);
    var w0 := w.(nextId := reference);
    var w1 := PostCash(w0, source, House(Fx, from), amount - c.fee, reference).value;
    PostingGroups(w0, source, House(Fx, from), amount - c.fee, reference);
    HousePosting(w0, source, House(Fx, from), amount - c.fee, reference);
    var w2 := PostCash(w1, source, House(FeeDesk, from), c.fee, reference).value;
    PostingGroups(w1, source, House(FeeDesk, from), c.fee, reference);
    HousePosting(w1, source, House(FeeDesk, from), c.fee, reference);
    PostingGroups(w2, House(Fx, to), target, c.received, reference);
  }

  /** Any end piece that begins between two groups is grouped again. */
  lemma EndPieceIsGrouped(ledger: seq<Entry>, b: nat)
    requires Grouped(ledger) && b <= |ledger| && CutAt(ledger, b)
    ensures Grouped(ledger[b..])
  {
    hide Balance;
    var kept := ledger[b..];
    forall k: nat | k <= |kept| && CutAt(kept, k)
      ensures Flat(kept[..k])
    {
      if k == 0 {
        NothingIsFlat(kept[..0]);
      } else {
        if k < |kept| { assert kept[k - 1] == ledger[b + k - 1] && kept[k] == ledger[b + k]; }
        assert CutAt(ledger, b + k);
        assert ledger[..b + k] == ledger[..b] + kept[..k];
        RestIsFlat(ledger[..b], kept[..k]);
      }
    }
  }

  lemma NothingIsFlat(ledger: seq<Entry>)
    requires ledger == []
    ensures Flat(ledger)
  {
  }

  lemma RestIsFlat(a: seq<Entry>, b: seq<Entry>)
    requires Flat(a) && Flat(a + b)
    ensures Flat(b)
  {
    forall m
      ensures Balance(b, m) == 0
    {
      BalanceAdds(a, b, m);
    }
  }

  /** Keeps the last entries, and as many before them as belong to the same group. */
  method Compact(ledger: seq<Entry>) returns (kept: seq<Entry>, boundary: nat)
    ensures boundary <= |ledger| && kept == ledger[boundary..] && CutAt(ledger, boundary)
    ensures |ledger| <= KEPT_ENTRIES ==> kept == ledger
    ensures |ledger| > KEPT_ENTRIES ==>
      boundary <= |ledger| - KEPT_ENTRIES && forall k: nat :: boundary < k <= |ledger| - KEPT_ENTRIES ==>
        !CutAt(ledger, k)
    ensures Grouped(ledger) ==> Grouped(kept) && Flat(kept)
  {
    hide Grouped, Flat;
    boundary := 0;
    if |ledger| > KEPT_ENTRIES {
      boundary := |ledger| - KEPT_ENTRIES;
      while boundary > 0 && ledger[boundary - 1].reference == ledger[boundary].reference
        invariant boundary <= |ledger| - KEPT_ENTRIES
        invariant forall k: nat :: boundary < k <= |ledger| - KEPT_ENTRIES ==> !CutAt(ledger, k)
      {
        boundary := boundary - 1;
      }
    }
    kept := ledger[boundary..];
    if Grouped(ledger) {
      EndPieceIsGrouped(ledger, boundary);
      GroupedIsFlat(kept);
    }
  }
}
