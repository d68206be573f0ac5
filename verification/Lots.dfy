/** Which lots a sale takes, and how much of the loan it repays. */
module Lots {
  import opened Numbers
  import opened Money
  import opened Accounts

  datatype Removal = Removal(lots: seq<Lot>, debt: int, left: int)

  /** In the Chinese market a lot cannot be sold on the day it was bought, except by the market maker. */
  predicate Locked(lot: Lot, m: Market, actor: Actor, day: int) {
    m.CN? && !actor.Maker? && lot.boughtDay >= day
  }

  function Sellable(lots: seq<Lot>, m: Market, actor: Actor, day: int): int {
    if lots == [] then 0
    else (if Locked(lots[0], m, actor, day) then 0 else lots[0].quantity) + Sellable(lots[1..], m, actor, day)
  }

  function Repayment(lot: Lot, removed: int): int
    requires lot.quantity > 0
  {
    if removed == lot.quantity then lot.debt else lot.debt * removed / lot.quantity
  }

  /** First in, first out over the lots that may be sold; a part of a lot repays its part of the loan, rounded down. */
  function RemoveLots(lots: seq<Lot>, quantity: int, m: Market, actor: Actor, day: int): Removal
    requires LotsOk(lots)
  {
    if lots == [] || quantity == 0 then Removal(lots, 0, quantity)
    else if Locked(lots[0], m, actor, day) then
      var r := RemoveLots(lots[1..], quantity, m, actor, day);
      r.(lots := [lots[0]] + r.lots)
    else
      var removed := if quantity <= lots[0].quantity then quantity else lots[0].quantity;
      var paid := Repayment(lots[0], removed);
      var r := RemoveLots(lots[1..], quantity - removed, m, actor, day);
      var kept := if removed == lots[0].quantity then []
        else [lots[0].(quantity := lots[0].quantity - removed, debt := lots[0].debt - paid)];
      Removal(kept + r.lots, paid + r.debt, r.left)
  }

  lemma RepaymentIsPart(lot: Lot, removed: int)
    requires lot.quantity > 0 && lot.debt >= 0 && 0 <= removed <= lot.quantity
    ensures 0 <= Repayment(lot, removed) <= lot.debt
  {
    if removed < lot.quantity {
      var n := lot.debt * removed;
      TimesKeepsOrder(0, removed, lot.debt);
      TimesKeepsOrder(removed, lot.quantity, lot.debt);
      DivideDown(n, lot.quantity, lot.debt);
    }
  }

  lemma DivideDown(n: int, d: int, q: int)
    requires d > 0 && 0 <= n <= q * d
    ensures 0 <= n / d <= q
  {
    assert n == n / d * d + n % d;
    if n / d > q {
      TimesKeepsOrder(q + 1, n / d, d);
    }
  }

  /** Lots that were kept, put back in front of what became of the others. */
  lemma PutBack(front: seq<Lot>, rest: seq<Lot>)
    requires |front| <= 1
    ensures LotsOk(front) && LotsOk(rest) ==> LotsOk(front + rest)
    ensures LongQuantity(front + rest) == (if front == [] then 0 else front[0].quantity) + LongQuantity(rest)
    ensures LotDebt(front + rest) == (if front == [] then 0 else front[0].debt) + LotDebt(rest)
  {
    if front == [] {
      assert front + rest == rest;
    } else {
      assert (front + rest)[1..] == rest;
    }
  }

  /** What is done to the first lot: locked lots are passed over, others give what they can. */
  function FirstTaken(lots: seq<Lot>, quantity: int, m: Market, actor: Actor, day: int): int
    requires lots != []
  {
    if Locked(lots[0], m, actor, day) then 0 else if quantity <= lots[0].quantity then quantity else lots[0].quantity
  }

  function FirstKept(lot: Lot, removed: int): seq<Lot>
    requires lot.quantity > 0
  {
    if removed == lot.quantity then []
    else [lot.(quantity := lot.quantity - removed, debt := lot.debt - Repayment(lot, removed))]
  }

  lemma RemovalUnfolds(lots: seq<Lot>, quantity: int, m: Market, actor: Actor, day: int)
    requires LotsOk(lots) && lots != [] && quantity > 0
    ensures var removed := FirstTaken(lots, quantity, m, actor, day);
      var r := RemoveLots(lots[1..], quantity - removed, m, actor, day);
      0 <= removed <= lots[0].quantity && removed <= quantity
      && RemoveLots(lots, quantity, m, actor, day)
         == Removal(FirstKept(lots[0], removed) + r.lots, Repayment(lots[0], removed) + r.debt, r.left)
  {
    if Locked(lots[0], m, actor, day) {
      assert Repayment(lots[0], 0) == 0;
    }
  }

  lemma FirstKeptIsSound(lot: Lot, removed: int)
    requires lot.quantity > 0 && lot.debt >= 0 && 0 <= removed <= lot.quantity
    ensures var k := FirstKept(lot, removed);
      && |k| <= 1 && LotsOk(k) && 0 <= Repayment(lot, removed)
      && (if k == [] then 0 else k[0].quantity) == lot.quantity - removed
      && (if k == [] then 0 else k[0].debt) == lot.debt - Repayment(lot, removed)
  {
    RepaymentIsPart(lot, removed);
  }

  lemma FirstOfAll(lots: seq<Lot>)
    requires lots != [] && LotsOk(lots)
    ensures lots[0].quantity > 0 && lots[0].debt >= 0 && LotsOk(lots[1..])
    ensures LongQuantity(lots) == lots[0].quantity + LongQuantity(lots[1..])
    ensures LotDebt(lots) == lots[0].debt + LotDebt(lots[1..])
  {
  }

  lemma NothingRemoved(lots: seq<Lot>, quantity: int, m: Market, actor: Actor, day: int)
    requires LotsOk(lots) && (lots == [] || quantity == 0)
    ensures var r := RemoveLots(lots, quantity, m, actor, day); r.lots == lots && r.debt == 0 && r.left == quantity
  {
  }

  /** A removal accounts for every share and every cent of loan. */
  lemma {:induction false} RemovalIsExact(lots: seq<Lot>, quantity: int, m: Market, actor: Actor, day: int)
    requires LotsOk(lots) && quantity >= 0
    ensures var r := RemoveLots(lots, quantity, m, actor, day);
      && LotsOk(r.lots) && 0 <= r.debt && 0 <= r.left <= quantity
      && LongQuantity(r.lots) == LongQuantity(lots) - (quantity - r.left)
      && LotDebt(r.lots) == LotDebt(lots) - r.debt
    decreases |lots|
  {
    if lots == [] || quantity == 0 {
      NothingRemoved(lots, quantity, m, actor, day);
    } else {
      hide RemoveLots, Repayment, Locked, FirstKept, LongQuantity, LotDebt, FirstTaken, LotsOk;
      FirstOfAll(lots);
      var removed := FirstTaken(lots, quantity, m, actor, day);
      var r := RemoveLots(lots[1..], quantity - removed, m, actor, day);
      RemovalUnfolds(lots, quantity, m, actor, day);
      FirstKeptIsSound(lots[0], removed);
      RemovalIsExact(lots[1..], quantity - removed, m, actor, day);
      PutBack(FirstKept(lots[0], removed), r.lots);
    }
  }

  /** It fails only for want of shares that may be sold today. */
  lemma {:induction false} RemovalSucceeds(lots: seq<Lot>, quantity: int, m: Market, actor: Actor, day: int)
    requires LotsOk(lots) && quantity >= 0
    ensures RemoveLots(lots, quantity, m, actor, day).left == 0 <==> quantity <= Sellable(lots, m, actor, day)
    decreases |lots|
  {
    if lots != [] && quantity == 0 {
      SellableIsNotNegative(lots, m, actor, day);
    } else if lots != [] {
      RemovalUnfolds(lots, quantity, m, actor, day);
      hide RemoveLots, Repayment, FirstKept;
      RemovalSucceeds(lots[1..], quantity - FirstTaken(lots, quantity, m, actor, day), m, actor, day);
      SellableIsNotNegative(lots[1..], m, actor, day);
    }
  }

  lemma {:induction false} SellableIsNotNegative(lots: seq<Lot>, m: Market, actor: Actor, day: int)
    requires LotsOk(lots)
    ensures Sellable(lots, m, actor, day) >= 0
  {
    if lots != [] { SellableIsNotNegative(lots[1..], m, actor, day); }
  }

  function Kept(lots: seq<Lot>): seq<Lot> {
    if lots == [] then []
    else Kept(lots[..|lots| - 1]) + if lots[|lots| - 1].quantity > 0 then [lots[|lots| - 1]] else []
  }

  lemma {:induction false} KeepsAll(lots: seq<Lot>)
    requires LotsOk(lots)
    ensures Kept(lots) == lots
  {
    if lots != [] {
      KeepsAll(lots[..|lots| - 1]);
      assert lots == lots[..|lots| - 1] + [lots[|lots| - 1]];
    }
  }

  lemma {:induction false} KeptConcat(a: seq<Lot>, b: seq<Lot>)
    ensures Kept(a + b) == Kept(a) + Kept(b)
  {
    if b == [] {
      assert a + b == a;
    } else {
      assert (a + b)[..|a + b| - 1] == a + b[..|b| - 1];
      KeptConcat(a, b[..|b| - 1]);
    }
  }

  /** One turn of the loop below. */
  lemma TakeStep(done: seq<Lot>, rest: seq<Lot>, remaining: int, m: Market, actor: Actor, day: int)
    requires LotsOk(rest) && rest != [] && remaining > 0
    ensures var removed := FirstTaken(rest, remaining, m, actor, day);
      var now := rest[0].(quantity := rest[0].quantity - removed, debt := rest[0].debt - Repayment(rest[0], removed));
      var t := RemoveLots(rest[1..], remaining - removed, m, actor, day);
      && 0 <= removed <= remaining && (Locked(rest[0], m, actor, day) ==> now == rest[0])
      && RemoveLots(rest, remaining, m, actor, day)
         == Removal(FirstKept(rest[0], removed) + t.lots, Repayment(rest[0], removed) + t.debt, t.left)
      && Kept(done + [now]) == Kept(done) + FirstKept(rest[0], removed)
  {
    var removed := FirstTaken(rest, remaining, m, actor, day);
    var now := rest[0].(quantity := rest[0].quantity - removed, debt := rest[0].debt - Repayment(rest[0], removed));
    RemovalUnfolds(rest, remaining, m, actor, day);
    assert Repayment(rest[0], 0) == 0;
    assert (done + [now])[..|done|] == done;
  }

  /** The loop over the held lots: updates them in place, then drops the empty ones. */
  method TakeLots(held: seq<Lot>, quantity: int, m: Market, actor: Actor, day: int) returns (r: Removal)
    requires LotsOk(held) && quantity >= 0
    ensures r == RemoveLots(held, quantity, m, actor, day)
  {
    hide RemoveLots, Repayment, Locked, Kept, FirstKept;
    var lots, remaining, debt := held, quantity, 0;
    var i := 0;
    assert Kept(lots[..0]) == [] by { KeepsAll(lots[..0]); }
    while i < |lots|
      invariant i <= |lots| == |held| && lots[i..] == held[i..] && remaining >= 0
      invariant var t := RemoveLots(held[i..], remaining, m, actor, day);
        RemoveLots(held, quantity, m, actor, day) == Removal(Kept(lots[..i]) + t.lots, debt + t.debt, t.left)
    {
      if remaining == 0 {
        break;
      }
      var lot := lots[i];
      ghost var before := lots;
      TakeStep(lots[..i], held[i..], remaining, m, actor, day);
      assert held[i..][0] == lot && held[i..][1..] == held[i + 1..];
      if !Locked(lot, m, actor, day) {
        var removed := if remaining <= lot.quantity then remaining else lot.quantity;
        var repayment := Repayment(lot, removed);
        lots := lots[i := lot.(quantity := lot.quantity - removed, debt := lot.debt - repayment)];
        remaining, debt := remaining - removed, debt + repayment;
      }
      assert lots[..i + 1] == before[..i] + [lots[i]];
      i := i + 1;
    }
    NothingMoreTaken(held[i..], remaining, m, actor, day);
    assert lots == lots[..i] + held[i..];
    KeptConcat(lots[..i], held[i..]);
    KeepsAll(held[i..]);
    r := Removal(Kept(lots), debt, remaining);
  }

  lemma NothingMoreTaken(rest: seq<Lot>, remaining: int, m: Market, actor: Actor, day: int)
    requires LotsOk(rest) && (rest == [] || remaining == 0)
    ensures RemoveLots(rest, remaining, m, actor, day) == Removal(rest, 0, remaining)
  {
  }
}
