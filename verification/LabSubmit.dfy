/**
 What becomes of an order event, twice over: as a relation between the book before and after, and as
 a function that computes the book after. The function makes a whole tape replayable.
 */
module LabSubmit {
  import opened Wrappers
  import opened LabMoney
  import opened LabState
  import opened LabFill
  import opened LabRest
  import opened LabSweep
  import opened LabRun

  /** Whether a market buy could pay for one more share of the best ask. */
  predicate CannotAffordNext(b: Book, actor: string) {
    b.asks != [] && actor in b.accounts
    && CostOf(b.asks[0].price, 1, b.feeBps) > b.accounts[actor].cash - b.accounts[actor].reservedCash
  }

  /** An own order at an acceptable price stands first on the other side. */
  predicate Blocked(b: Book, e: Event) {
    var orders := Opposite(b, e.side.Buy?);
    orders != [] && orders[0].actor == e.actor
    && (e.price.Some? ==> if e.side.Buy? then orders[0].price <= e.price.value else orders[0].price >= e.price.value)
  }

  function RemainderOf(e: Event, remaining: nat): Order
    requires e.price.Some? && e.price.value >= 0 && e.sequence >= 0 && e.tick >= 0
  {
    Order(e.id, e.actor, e.side, e.price.value, remaining, e.sequence, e.tick)
  }

  predicate LacksResources(b: Book, e: Event)
    requires e.actor in b.accounts && e.quantity >= 0 && (e.price.Some? ==> e.price.value >= 0)
  {
    var a := b.accounts[e.actor];
    if e.side.Buy? then e.price.Some? && e.quantity * ReservePerShare(e.price.value, b.feeBps) > a.cash - a.reservedCash
    else e.quantity > a.inventory - a.reservedInventory
  }

  /** Why an event is turned away at the door, and what it reports as unfilled. */
  function Refusal(b: Book, e: Event): Option<Outcome> {
    match Complaint(e)
    case Some(InvalidId) => Some(Rejected(InvalidId, 0))
    case Some(InvalidActor) => Some(Rejected(InvalidActor, 0))
    case Some(InvalidQuantity) => Some(Rejected(InvalidQuantity, 0))
    case Some(reason) => Some(Rejected(reason, if e.quantity >= 0 then e.quantity else 0))
    case None =>
      if e.actor !in b.accounts then Some(Rejected(UnknownActor, e.quantity))
      else if e.id in b.used then Some(Rejected(DuplicateOrderId, e.quantity))
      else if LacksResources(b, e) then Some(Rejected(if e.side.Buy? then InsufficientCash else InsufficientInventory,
                                                      e.quantity))
      else None
  }

  /** What becomes of an admitted event: `mid` is the book after its sweep, `b` the book in the end. */
  ghost predicate Handled(b0: Book, mid: Book, b: Book, e: Event, out: Outcome) {
    && Complaint(e).None? && e.actor in mid.accounts && out.filled + out.resting + out.unfilled == e.quantity
    && Swept(b0.(used := b0.used + {e.id}), mid, e, out.trades, out.filled)
    && var reach := Reach(Opposite(b0, e.side.Buy?), e.actor, e.price, e.side.Buy?);
       var rest := e.quantity - out.filled;
    && (out.filled == reach || rest == 0 || (e.side.Buy? && e.price.None? && CannotAffordNext(mid, e.actor)))
    && (if rest == 0 || Blocked(mid, e) || e.price.None? then b == mid && out.resting == 0
        else b == RestBook(mid, RemainderOf(e, rest), e.side.Buy?) && out.resting == rest)
    && out.reason == (if rest == 0 then None
                      else if Blocked(mid, e) then Some(SelfTradePrevented)
                      else if e.price.Some? then None
                      else if out.filled < reach then Some(InsufficientCash) else Some(MarketRemainderCancelled))
  }

  /** The largest quantity up to `cap` that the available cash pays for. */
  function Affordable(available: int, price: nat, cap: nat, feeBps: nat): (k: nat)
    ensures k <= cap
  {
    if cap == 0 || CostOf(price, cap, feeBps) <= available then cap else Affordable(available, price, cap - 1, feeBps)
  }

  lemma {:induction false} AffordableIsLargest(available: int, price: nat, cap: nat, feeBps: nat, k: nat)
    requires k <= cap && CostOf(price, k, feeBps) <= available && NothingMoreFits(available, price, k, cap, feeBps)
    ensures Affordable(available, price, cap, feeBps) == k
  {
    hide CostOf;
    if cap > k { AffordableIsLargest(available, price, cap - 1, feeBps, k); }
  }

  /** How many of the wanted shares an event can pay for: only a market purchase looks at its cash. */
  function PaysFor(b: Book, e: Event, price: nat, wanted: nat): (q: nat)
    ensures q <= wanted
  {
    if e.side.Buy? && e.price.None? && e.actor in b.accounts
    then Affordable(b.accounts[e.actor].cash - b.accounts[e.actor].reservedCash, price, wanted, b.feeBps)
    else wanted
  }

  datatype Progress = Progress(book: Book, trades: seq<Trade>, remaining: nat, cashLimited: bool)

  /** The sweep as a function. In a valid book the event can always fill what it can pay for. */
  function Take(b: Book, e: Event, trades: seq<Trade>, remaining: nat, limited: bool): Progress
    decreases remaining
  {
    var buys := e.side.Buy?;
    var orders := Opposite(b, buys);
    if remaining == 0 || orders == [] || !Acceptable(orders[0], e.actor, e.price, buys)
    then Progress(b, trades, remaining, limited)
    else
      var wanted := if remaining <= orders[0].remaining then remaining else orders[0].remaining;
      var q := PaysFor(b, e, orders[0].price, wanted);
      if !CanFill(b, e.actor, buys, q) || e.sequence < 0 || e.tick < 0
      then Progress(b, trades, remaining, limited || q < wanted)
      else
        Take(FillBook(b, e.actor, buys, q, e.sequence, e.tick, |trades|), e,
             trades + [TradeOf(b, e.actor, buys, q, e.sequence, e.tick, |trades|)],
             remaining - q, limited || q < wanted)
  }

  lemma TakeStops(b: Book, e: Event, trades: seq<Trade>, remaining: nat, limited: bool)
    requires
      || remaining == 0 || Opposite(b, e.side.Buy?) == []
      || !Acceptable(Opposite(b, e.side.Buy?)[0], e.actor, e.price, e.side.Buy?)
    ensures Take(b, e, trades, remaining, limited) == Progress(b, trades, remaining, limited)
  {
  }

  /** One turn of the sweep: a fill, or the end for want of cash. */
  lemma TakeTurns(b: Book, e: Event, trades: seq<Trade>, remaining: nat, limited: bool, wanted: nat, q: nat)
    requires remaining > 0 && Opposite(b, e.side.Buy?) != []
    requires Acceptable(Opposite(b, e.side.Buy?)[0], e.actor, e.price, e.side.Buy?)
    requires var best := Opposite(b, e.side.Buy?)[0];
      wanted == if remaining <= best.remaining then remaining else best.remaining
    requires q == PaysFor(b, e, Opposite(b, e.side.Buy?)[0].price, wanted)
    requires (q > 0 ==> CanFill(b, e.actor, e.side.Buy?, q)) && e.sequence >= 0 && e.tick >= 0
    ensures q == 0 ==> Take(b, e, trades, remaining, limited) == Progress(b, trades, remaining, limited || q < wanted)
    ensures q <= remaining
    ensures q > 0 ==>
      Take(b, e, trades, remaining, limited) ==
      Take(FillBook(b, e.actor, e.side.Buy?, q, e.sequence, e.tick, |trades|), e,
           trades + [TradeOf(b, e.actor, e.side.Buy?, q, e.sequence, e.tick, |trades|)],
           remaining - q, limited || q < wanted)
  {
    hide FillBook, TradeOf, PaysFor, Acceptable;
  }

  datatype Submission = Submission(book: Book, outcome: Outcome)

  /** The book and the report after an event. */
  function Submitted(b: Book, e: Event): Submission {
    if Refusal(b, e).Some? then Submission(b, Refusal(b, e).value)
    else Settled(Take(b.(used := b.used + {e.id}), e, [], e.quantity, false), e)
  }

  /** What remains after the sweep is cancelled, or rests. */
  function Settled(p: Progress, e: Event): Submission
    requires e.quantity >= 0
  {
    var blocked := p.remaining > 0 && Blocked(p.book, e);
    var rests :=
      && p.remaining > 0 && !blocked && e.price.Some? && e.price.value >= 0 && e.sequence >= 0 && e.tick >= 0
      && e.actor in p.book.accounts;
    var resting := if rests then p.remaining else 0;
    Submission(if rests then RestBook(p.book, RemainderOf(e, p.remaining), e.side.Buy?) else p.book,
               Outcome(if p.remaining <= e.quantity then e.quantity - p.remaining else 0, p.remaining - resting,
                       resting, p.trades,
                       if p.remaining == 0 then None
                       else if blocked then Some(SelfTradePrevented)
                       else if e.price.Some? then None
                       else if p.cashLimited then Some(InsufficientCash) else Some(MarketRemainderCancelled)))
  }

  function PlaceOf(orders: seq<Order>, id: string): nat {
    if orders == [] || orders[0].id == id then 0 else 1 + PlaceOf(orders[1..], id)
  }

  lemma {:induction false} PlaceFinds(orders: seq<Order>, id: string)
    ensures PlaceOf(orders, id) <= |orders| && forall i :: 0 <= i < PlaceOf(orders, id) ==> orders[i].id != id
    ensures PlaceOf(orders, id) < |orders| ==> orders[PlaceOf(orders, id)].id == id
  {
    if orders != [] { PlaceFinds(orders[1..], id); }
  }

  /** The book after a cancel. */
  function AfterCancel(b: Book, actor: string, id: string): Book {
    var buy := PlaceOf(b.bids, id) < |b.bids|;
    var i := PlaceOf(SideOf(b, buy), id);
    if IsIdentifier(actor) && IsIdentifier(id) && i < |SideOf(b, buy)|
       && SideOf(b, buy)[i].actor == actor && actor in b.accounts
    then CancelBook(b, buy, i) else b
  }
}
