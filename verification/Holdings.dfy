/**
 Who holds what after a trade, account by account: the buyer and the seller move by the traded
 quantity, nobody else moves.
 */
module Holdings {
  import opened Numbers
  import opened Money
  import opened Accounts
  import opened Lots
  import opened Settlement
  import opened SettlementSteps
  import opened Trades

  predicate IsHolding(x: Measure) { x.NetShares? || x.Shorts? }

  /** Every account's holdings moved by `moves`, which says how much for whom. */
  ghost predicate HoldingsMove(v: World, w: World, moves: (AccountId, Measure) -> int) {
    && v.accounts.Keys == w.accounts.Keys
    && forall id, x: Measure :: id in w.accounts && IsHolding(x) ==>
       Reading(x, v.accounts[id]) == Reading(x, w.accounts[id]) + moves(id, x)
  }

  function Still(): (AccountId, Measure) -> int { (id, x) => 0 }

  function ByOrder(o: Order, quantity: int): (AccountId, Measure) -> int {
    (id, x) => if id == o.account then Delta(x, o.symbol, o.side, quantity) else 0
  }

  function ByTrade(buy: Order, sell: Order, quantity: int): (AccountId, Measure) -> int {
    (id, x) => ByOrder(buy, quantity)(id, x) + ByOrder(sell, quantity)(id, x)
  }

  lemma PostingMovesNoHolding(w: World, from: AccountId, to: AccountId, amount: int, reference: int)
    requires from in w.accounts && to in w.accounts && PostCash(w, from, to, amount, reference).Success?
    ensures HoldingsMove(PostCash(w, from, to, amount, reference).value, w, Still())
    ensures forall id :: id in w.accounts ==>
      PostCash(w, from, to, amount, reference).value.accounts[id].positions == w.accounts[id].positions
    ensures forall id :: id in w.accounts ==>
      PostCash(w, from, to, amount, reference).value.accounts[id].id == w.accounts[id].id
  {
    hide LongQuantity;
  }

  /** The account's half of a trade, against the account as it was before the loan moved. */
  lemma ReplacedHoldings(w: World, v: World, o: Order, p: Position, b: Account, quantity: int, reference: int)
    requires o.account in w.accounts && HoldingsMove(v, w, Still())
    requires v.accounts[o.account].positions == w.accounts[o.account].positions
    requires b.id == o.account && b.positions == WithPosition(v.accounts[o.account], o.symbol, p).positions
    requires var held := PositionOf(w.accounts[o.account], o.symbol);
      && LongQuantity(p.lots) - p.shortQuantity
         == LongQuantity(held.lots) - held.shortQuantity + (if o.side.Buying() then quantity else -quantity)
      && p.shortQuantity == held.shortQuantity
         + (if o.side.Short? then quantity else if o.side.Cover? then -quantity else 0)
    ensures HoldingsMove(Marked(WithAccount(v, b), o, reference), w, ByOrder(o, quantity))
  {
    hide LongQuantity;
    var u := Marked(WithAccount(v, b), o, reference);
    forall id, x: Measure | id in w.accounts && IsHolding(x)
      ensures Reading(x, u.accounts[id]) == Reading(x, w.accounts[id]) + ByOrder(o, quantity)(id, x)
    {
      if id != o.account {
        assert u.accounts[id] == v.accounts[id];
        assert Reading(x, v.accounts[id]) == Reading(x, w.accounts[id]) + Still()(id, x);
      }
    }
  }

  lemma ChangeMovesHoldings(w: World, o: Order, turnover: int, price: int, quantity: int, reference: int)
    requires o.account in w.accounts && House(Bank, o.account.market) in w.accounts
    requires w.accounts[o.account].id == o.account && quantity >= 0
    requires PositionOk(PositionOf(w.accounts[o.account], o.symbol)) && w.accounts[o.account].leverage >= 1
    requires ChangePosition(w, o, turnover, price, quantity, reference).Success?
    ensures HoldingsMove(ChangePosition(w, o, turnover, price, quantity, reference).value, w, ByOrder(o, quantity))
  {
    hide HoldingsMove, PostCash, Marked, RemoveLots, Ceil, ByOrder, Share, LongQuantity, WithPosition;
    var a := w.accounts[o.account];
    var held, bank, day := PositionOf(a, o.symbol), House(Bank, o.account.market), DayOf(w, a.id.market);
    NothingMoves(w);
    match o.side
    case Buy =>
      var borrowed := turnover - Ceil(turnover, a.leverage);
      if borrowed > 0 {
        PostingMovesNoHolding(w, bank, o.account, borrowed, reference);
        MovesKeepKeys(PostCash(w, bank, o.account, borrowed, reference).value, w);
      }
      var v := if borrowed > 0 then PostCash(w, bank, o.account, borrowed, reference).value else w;
      var lot := Lot(quantity, price, day, borrowed);
      LotSumsConcat(held.lots, [lot]);
      OneLot(lot);
      OnlyPositionsDiffer(v.accounts[o.account], o.symbol);
      var b := Bought(v.accounts[o.account], o.symbol, held, lot);
      ReplacedHoldings(w, v, o, held.(lots := held.lots + [lot]), b, quantity, reference);
    case Sell =>
      var r := RemoveLots(held.lots, quantity, a.id.market, a.actor, day);
      RemovalIsExact(held.lots, quantity, a.id.market, a.actor, day);
      if r.debt > 0 {
        PostingMovesNoHolding(w, o.account, bank, r.debt, reference);
        MovesKeepKeys(PostCash(w, o.account, bank, r.debt, reference).value, w);
      }
      var v := if r.debt > 0 then PostCash(w, o.account, bank, r.debt, reference).value else w;
      OnlyPositionsDiffer(v.accounts[o.account], o.symbol);
      var b := SoldOff(v.accounts[o.account], o.symbol, held, r);
      ReplacedHoldings(w, v, o, held.(lots := r.lots), b, quantity, reference);
    case Short =>
      OnlyPositionsDiffer(a, o.symbol);
      var b := WentShort(a, o.symbol, held, quantity, turnover);
      var p := held.(shortQuantity := held.shortQuantity + quantity, shortProceeds := held.shortProceeds + turnover,
                     collateral := held.collateral + Collateral(turnover));
      ReplacedHoldings(w, w, o, p, b, quantity, reference);
    case Cover =>
      OnlyPositionsDiffer(a, o.symbol);
      var b := Covered(a, o.symbol, held, quantity);
      var released := Share(held.collateral, quantity, held.shortQuantity);
      var proceeds := Share(held.shortProceeds, quantity, held.shortQuantity);
      var p := held.(shortQuantity := held.shortQuantity - quantity, shortProceeds := held.shortProceeds - proceeds,
                     collateral := held.collateral - released);
      ReplacedHoldings(w, w, o, p, b, quantity, reference);
  }

  lemma OneLot(lot: Lot)
    ensures LongQuantity([lot]) == lot.quantity
  {
    assert [lot][1..] == [];
  }

  lemma NothingMoves(w: World)
    ensures HoldingsMove(w, w, Still())
  {
  }

  lemma MovesKeepKeys(v: World, w: World)
    requires HoldingsMove(v, w, Still())
    ensures v.accounts.Keys == w.accounts.Keys
  {
  }

  lemma MovesAdd(u: World, v: World, w: World, first: (AccountId, Measure) -> int, second: (AccountId, Measure) -> int,
                 both: (AccountId, Measure) -> int)
    requires HoldingsMove(v, u, first) && HoldingsMove(w, v, second)
    requires forall id, x :: both(id, x) == first(id, x) + second(id, x)
    ensures HoldingsMove(w, u, both)
  {
    hide Reading;
  }

  lemma SwapMovesHoldings(w: World, buy: Order, sell: Order, price: int, quantity: int)
    requires Settleable(w, buy, sell, price, quantity) && buy.account != sell.account
    requires ValidateFill(w, buy, price, quantity).None? && ValidateFill(w, sell, price, quantity).None?
    requires Swap(w, buy, sell, price, quantity).Success?
    ensures HoldingsMove(Swap(w, buy, sell, price, quantity).value, w, ByTrade(buy, sell, quantity))
  {
    hide PostCash, ChangePosition, ValidateFill, AccountOk, WorldOk, HoldingsMove, ByOrder;
    var reference, turnover := w.nextId + 1, price * quantity;
    var w0 := w.(nextId := reference);
    HouseFacts(w, buy.account, buy.symbol);
    LaterMovesNothing(w, reference);
    BuyerChanged(w, buy, sell, price, quantity);
    ChangeMovesHoldings(w0, buy, turnover, price, quantity, reference);
    var w1 := ChangePosition(w0, buy, turnover, price, quantity, reference).value;
    PostingMovesNoHolding(w1, buy.account, sell.account, turnover, reference);
    MoneyMoved(w1, buy.account, sell.account, turnover, reference, sell.symbol);
    var w2 := PostCash(w1, buy.account, sell.account, turnover, reference).value;
    HouseFacts(w2, sell.account, sell.symbol);
    ChangeMovesHoldings(w2, sell, turnover, price, quantity, reference);
    var w3 := ChangePosition(w2, sell, turnover, price, quantity, reference).value;
    MovesAdd(w, w0, w1, Still(), ByOrder(buy, quantity), ByOrder(buy, quantity));
    MovesAdd(w, w1, w2, ByOrder(buy, quantity), Still(), ByOrder(buy, quantity));
    MovesAdd(w, w2, w3, ByOrder(buy, quantity), ByOrder(sell, quantity), ByTrade(buy, sell, quantity));
  }

  lemma LaterMovesNothing(w: World, n: int)
    ensures HoldingsMove(w.(nextId := n), w, Still())
  {
  }

  /**
   A settled trade moves the buyer's shares up and the seller's down by the quantity, in that symbol
   only, and nobody else's.
   */
  lemma SettledHoldings(w: World, buy: Order, sell: Order, price: int, quantity: int)
    requires Settleable(w, buy, sell, price, quantity) && SettleTrade(w, buy, sell, price, quantity).Success?
    ensures buy.account != sell.account
    ensures HoldingsMove(SettleTrade(w, buy, sell, price, quantity).value.world, w, ByTrade(buy, sell, quantity))
  {
    hide ValidateFill, AccountOk, WorldOk, Swap, FinishSide, Swapped, HoldingsMove, ByTrade, PostCash;
    SwapMovesHoldings(w, buy, sell, price, quantity);
    SwapKeepsWorld(w, buy, sell, price, quantity);
    var v := Swap(w, buy, sell, price, quantity).value;
    SwappedIsSound(w, buy, sell, price, quantity, v);
    HouseFacts(v, buy.account, buy.symbol);
    FinishMovesNoHolding(v, buy, price, quantity, w.nextId + 1);
    FinishKeepsWorld(v, buy, price, quantity, w.nextId + 1);
    var b := FinishSide(v, buy, price, quantity, w.nextId + 1).value;
    HouseFacts(b.world, sell.account, sell.symbol);
    FinishMovesNoHolding(b.world, sell, price, quantity, w.nextId + 1);
    var s := FinishSide(b.world, sell, price, quantity, w.nextId + 1).value;
    var t := SettleTrade(w, buy, sell, price, quantity).value.world;
    QuotesMoveNothing(s.world, t);
    MovesAdd(w, v, b.world, ByTrade(buy, sell, quantity), Still(), ByTrade(buy, sell, quantity));
    MovesAdd(w, b.world, s.world, ByTrade(buy, sell, quantity), Still(), ByTrade(buy, sell, quantity));
    MovesAdd(w, s.world, t, ByTrade(buy, sell, quantity), Still(), ByTrade(buy, sell, quantity));
  }

  lemma QuotesMoveNothing(v: World, u: World)
    requires u == v.(quotes := u.quotes)
    ensures HoldingsMove(u, v, Still())
  {
  }

  lemma FinishMovesNoHolding(w: World, o: Order, price: int, quantity: int, reference: int)
    requires o.account in w.accounts && House(FeeDesk, o.account.market) in w.accounts && o.filled + quantity > 0
    requires FinishSide(w, o, price, quantity, reference).Success?
    ensures HoldingsMove(FinishSide(w, o, price, quantity, reference).value.world, w, Still())
  {
    hide PostCash, Fees, LongQuantity;
    PostingMovesNoHolding(w, o.account, House(FeeDesk, o.account.market),
                          Fees(o.account.market, o.side, price * quantity), reference);
  }
}
