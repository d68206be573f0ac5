/** Settlement of one trade: validation against reservations, loans, collateral, fees, and the two orders. */
module Settlement {
  import opened Wrappers
  import opened Numbers
  import opened Money
  import opened Accounts
  import opened Lots

  const BORROW_POOL := 100_000

  predicate Live(o: Order) { o.status.Pending? || o.status.Partial? }

  function ReferencePrice(w: World, o: Order): int {
    if o.price.Some? then o.price.value
    else if o.triggerPrice.Some? then o.triggerPrice.value
    else if o.symbol in w.quotes then w.quotes[o.symbol] else 0
  }

  function Collateral(turnover: int): int { Ceil(turnover, 2) }

  /** What one live order sets aside. */
  function Reservation(o: Order, price: int, leverage: int): int {
    var turnover := price * o.remaining;
    var fee := Fees(o.account.market, o.side, turnover);
    match o.side
    case Buy => (if leverage > 0 then Ceil(turnover, leverage) else turnover) + fee
    case Short => Collateral(turnover) + fee
    case Cover => turnover + fee
    case Sell => 0
  }

  /** The cash that the account's other live orders set aside. */
  function ReservedCash(w: World, orders: seq<Order>, a: Account, except: string): int {
    if orders == [] then 0
    else
      var o := orders[0];
      (if o.account == a.id && o.id != except && Live(o) then Reservation(o, ReferencePrice(w, o), a.leverage) else 0)
      + ReservedCash(w, orders[1..], a, except)
  }

  function ReservedQuantity(orders: seq<Order>, a: Account, symbol: string, side: Side, except: string): int {
    if orders == [] then 0
    else
      var o := orders[0];
      var counts := o.symbol == symbol && o.account == a.id && o.id != except && o.side == side && Live(o);
      (if counts then o.remaining else 0)
      + ReservedQuantity(orders[1..], a, symbol, side, except)
  }

  function Available(w: World, a: Account, except: string): int { a.cash - ReservedCash(w, w.orders, a, except) }

  /** The part of the collateral, or of the proceeds, that covering `quantity` shares sets free. */
  function Share(whole: int, quantity: int, held: int): int
    requires held > 0
  {
    if quantity == held then whole else whole * quantity / held
  }

  /** The checks before a fill; `None` when it may go ahead. */
  function ValidateFill(w: World, o: Order, price: int, quantity: int): Option<RuleError>
    requires o.account in w.accounts
  {
    var a := w.accounts[o.account];
    var held := PositionOf(a, o.symbol);
    var turnover := Multiply(price, quantity);
    if turnover.Failure? then Some(turnover.error)
    else
      var t := turnover.value;
      var fee := Fees(a.id.market, o.side, t);
      var available := Available(w, a, o.id);
      match o.side
      case Buy =>
        if available < (if a.leverage > 0 then Ceil(t, a.leverage) else t) + fee then Some(InsufficientCash)
        else None
      case Sell =>
        var sellable := Sellable(held.lots, a.id.market, a.actor, DayOf(w, a.id.market));
        if sellable - ReservedQuantity(w.orders, a, o.symbol, Sell, o.id) < quantity
        then Some(InsufficientPosition) else None
      case Short =>
        if a.id.market.CN? then Some(ShortNotAllowed)
        else if available < Collateral(t) + fee then Some(InsufficientMargin)
        else if Sum(w, Shorts(o.symbol)) + quantity > BORROW_POOL then Some(NoBorrow) else None
      case Cover =>
        if held.shortQuantity - ReservedQuantity(w.orders, a, o.symbol, Cover,
                                                 o.id) < quantity then Some(InsufficientShort)
        else if held.shortQuantity <= 0 then Some(InsufficientShort)
        else if available + Share(held.collateral, quantity, held.shortQuantity) < t + fee then Some(InsufficientCash)
        else None
  }

  /** A lot comes in, with the loan that pays part of it. */
  function Bought(a: Account, symbol: string, held: Position, lot: Lot): Account {
    WithPosition(a, symbol, held.(lots := held.lots + [lot])).(debt := a.debt + Max(0, lot.debt))
  }

  /** Lots go out, with the loans on them. */
  function SoldOff(a: Account, symbol: string, held: Position, r: Removal): Account {
    WithPosition(a, symbol, held.(lots := r.lots)).(debt := a.debt - r.debt)
  }

  /** More shares are owed, and half their price is set aside. */
  function WentShort(a: Account, symbol: string, held: Position, quantity: int, turnover: int): Account {
    var c := Collateral(turnover);
    var p := held.(shortQuantity := held.shortQuantity + quantity, shortProceeds := held.shortProceeds + turnover,
                   collateral := held.collateral + c);
    WithPosition(a, symbol, p).(cash := a.cash - c, collateral := a.collateral + c)
  }

  /** Fewer shares are owed, and their part of what was set aside is free again. */
  function Covered(a: Account, symbol: string, held: Position, quantity: int): Account
    requires held.shortQuantity > 0
  {
    var released := Share(held.collateral, quantity, held.shortQuantity);
    var proceeds := Share(held.shortProceeds, quantity, held.shortQuantity);
    var p := held.(shortQuantity := held.shortQuantity - quantity, shortProceeds := held.shortProceeds - proceeds,
                   collateral := held.collateral - released);
    WithPosition(a, symbol, p).(cash := a.cash + released, collateral := a.collateral - released)
  }

  /** The account's and the position's half of a trade; cash for the shares themselves moves elsewhere. */
  function ChangePosition(w: World, o: Order, turnover: int, price: int, quantity: int,
                          reference: int): Result<World, RuleError>
    requires o.account in w.accounts && House(Bank, o.account.market) in w.accounts
    requires PositionOk(PositionOf(w.accounts[o.account], o.symbol)) && w.accounts[o.account].leverage >= 1
  {
    var a := w.accounts[o.account];
    var held := PositionOf(a, o.symbol);
    var bank := House(Bank, o.account.market);
    var day := DayOf(w, a.id.market);
    match o.side
    case Buy =>
      var borrowed := turnover - Ceil(turnover, a.leverage);
      var v :- if borrowed > 0 then PostCash(w, bank, o.account, borrowed, reference) else Success(w);
      Success(Marked(WithAccount(v, Bought(v.accounts[o.account], o.symbol, held, Lot(quantity, price, day, borrowed))),
                     o, reference))
    case Sell =>
      var r := RemoveLots(held.lots, quantity, a.id.market, a.actor, day);
      if r.left != 0 then Failure(InsufficientPosition)
      else
        var v :- if r.debt > 0 then PostCash(w, o.account, bank, r.debt, reference) else Success(w);
        Success(Marked(WithAccount(v, SoldOff(v.accounts[o.account], o.symbol, held, r)), o, reference))
    case Short =>
      Success(Marked(WithAccount(w, WentShort(a, o.symbol, held, quantity, turnover)), o, reference))
    case Cover =>
      if held.shortQuantity <= 0 then Failure(InsufficientShort)
      else Success(Marked(WithAccount(w, Covered(a, o.symbol, held, quantity)), o, reference))
  }

  /** The marker entry of a position change: no money, one line in the ledger. */
  function Marked(w: World, o: Order, reference: int): World {
    w.(ledger := w.ledger + [Entry(w.nextId + 1, reference, o.account, o.account, 0, o.account.market)],
       nextId := w.nextId + 1)
  }

  /** The order after a fill of `quantity` shares; an iceberg that is out of sight shows its next part at the back. */
  function FilledOrder(o: Order, price: int, quantity: int, nextSequence: int): Order
    requires o.filled + quantity > 0
  {
    var remaining, filled := o.remaining - quantity, o.filled + quantity;
    var visible := Max(0, o.visible - quantity);
    var shown := o.iceberg && visible == 0 && remaining > 0;
    o.(remaining := remaining, filled := filled,
       averagePrice := RoundDiv(o.averagePrice * o.filled + price * quantity, filled),
       visible := if shown then (if o.displayQuantity <= remaining then o.displayQuantity else remaining) else visible,
       sequence := if shown then nextSequence else o.sequence,
       status := if remaining == 0 then Done else Partial)
  }

  predicate ShowsNext(o: Order, quantity: int) {
    o.iceberg && Max(0, o.visible - quantity) == 0 && o.remaining - quantity > 0
  }

  datatype Finish = Finish(world: World, order: Order)

  /** Charges one side's fee, updates its order and refuses an overdrawn account. */
  function FinishSide(w: World, o: Order, price: int, quantity: int, reference: int): Result<Finish, RuleError>
    requires o.account in w.accounts && House(FeeDesk, o.account.market) in w.accounts && o.filled + quantity > 0
  {
    var v :- PostCash(w, o.account, House(FeeDesk, o.account.market), Fees(o.account.market, o.side, price * quantity),
                      reference);
    var next := FilledOrder(o, price, quantity, v.sequence + 1);
    if v.accounts[o.account].cash < 0 then Failure(NegativeCash)
    else Success(Finish(v.(sequence := if ShowsNext(o, quantity) then v.sequence + 1 else v.sequence), next))
  }
}
