/**
 The laboratory book as a value: accounts, resting orders, and the invariant that every call keeps.
 Reservations are defined here as exact sums over resting orders.
 */
module LabState {
  import opened Numbers
  import opened LabMoney
  import Sorting

  const MIN_PRICE_CENTS := 100
  const MAX_PRICE_CENTS := 10_000_000
  const MAX_CASH_CENTS := 1_000_000_000_000
  const MAX_INVENTORY_SHARES := 10_000_000
  const MAX_TICK_OR_SEQUENCE := 10_000_000
  const MAX_IDENTIFIER_LENGTH := 128
  const MAX_ACCOUNTS := 100

  datatype Side = Buy | Sell

  datatype Role = Maker | Noise | Informed | Parent

  datatype Account = Account(id: string, role: Role, cash: int, inventory: int, initialCash: int, initialInventory: int,
                             targetInventory: int, reservedCash: int, reservedInventory: int)

  datatype Order = Order(id: string, actor: string, side: Side, price: nat, remaining: nat, sequence: nat, tick: nat)

  datatype Trade = Trade(sequence: nat, index: nat, tick: nat, price: nat, quantity: nat, buyer: string, seller: string,
                         buyerFee: nat, sellerFee: nat, aggressor: string, restingOrder: string)

  datatype Book = Book(feeBps: nat, ids: seq<string>, accounts: map<string, Account>, bids: seq<Order>,
                       asks: seq<Order>,
                       used: set<string>, feePool: int, trades: seq<Trade>, flow: int)

  /** Code-unit order of identifiers. */
  predicate Precedes(a: string, b: string) {
    if b == [] then false
    else if a == [] then true
    else if a[0] != b[0] then a[0] < b[0]
    else Precedes(a[1..], b[1..])
  }

  lemma {:induction false} PrecedesIsTotal(a: string, b: string)
    ensures a == b || Precedes(a, b) || Precedes(b, a)
  {
    if a != [] && b != [] && a[0] == b[0] {
      PrecedesIsTotal(a[1..], b[1..]);
      assert a == [a[0]] + a[1..] && b == [b[0]] + b[1..];
    }
  }

  lemma {:induction false} PrecedesIsStrict(a: string, b: string)
    requires Precedes(a, b)
    ensures !Precedes(b, a) && a != b
  {
    if a != [] && a[0] == b[0] {
      PrecedesIsStrict(a[1..], b[1..]);
    }
  }

  lemma {:induction false} PrecedesIsTransitive(a: string, b: string, c: string)
    requires Precedes(a, b) && Precedes(b, c)
    ensures Precedes(a, c)
  {
    if a != [] && b != [] && c != [] && a[0] == b[0] == c[0] {
      PrecedesIsTransitive(a[1..], b[1..], c[1..]);
    }
  }

  /** Price first (highest bid, lowest ask), then sequence, then identifier. */
  predicate Ahead(a: Order, b: Order, buy: bool) {
    if a.price != b.price then (if buy then a.price > b.price else a.price < b.price)
    else if a.sequence != b.sequence then a.sequence < b.sequence
    else Precedes(a.id, b.id)
  }

  function BookOrder(buy: bool): (Order, Order) -> bool { (a, b) => !Ahead(b, a, buy) }

  lemma BookOrderIsTotal(buy: bool)
    ensures Sorting.TotalPreorder(BookOrder(buy))
  {
    var le := BookOrder(buy);
    forall a, b
      ensures le(a, b) || le(b, a)
    {
      if Precedes(a.id, b.id) { PrecedesIsStrict(a.id, b.id); }
    }
    forall a, b, c | le(a, b) && le(b, c)
      ensures le(a, c)
    {
      if Ahead(c, a, buy) && a.price == b.price == c.price && a.sequence == b.sequence == c.sequence {
        PrecedesIsTotal(a.id, b.id);
        PrecedesIsTotal(b.id, c.id);
        if a.id != b.id && b.id != c.id {
          PrecedesIsTransitive(a.id, b.id, c.id);
          PrecedesIsStrict(a.id, c.id);
        }
      }
    }
  }

  /** The cash that the resting bids of `actor` set aside. */
  function ReservedCash(bids: seq<Order>, actor: string, feeBps: nat): nat {
    if bids == [] then 0
    else
      (if bids[0].actor == actor then bids[0].remaining * ReservePerShare(bids[0].price, feeBps) else 0)
      + ReservedCash(bids[1..], actor, feeBps)
  }

  /** The shares that the resting asks of `actor` set aside. */
  function ReservedShares(asks: seq<Order>, actor: string): nat {
    if asks == [] then 0
    else (if asks[0].actor == actor then asks[0].remaining else 0) + ReservedShares(asks[1..], actor)
  }

  lemma {:induction false} ReservedCashConcat(a: seq<Order>, b: seq<Order>, actor: string, feeBps: nat)
    ensures ReservedCash(a + b, actor, feeBps) == ReservedCash(a, actor, feeBps) + ReservedCash(b, actor, feeBps)
  {
    if a == [] {
      assert a + b == b;
    } else {
      assert (a + b)[0] == a[0] && (a + b)[1..] == a[1..] + b;
      ReservedCashConcat(a[1..], b, actor, feeBps);
    }
  }

  lemma {:induction false} ReservedSharesConcat(a: seq<Order>, b: seq<Order>, actor: string)
    ensures ReservedShares(a + b, actor) == ReservedShares(a, actor) + ReservedShares(b, actor)
  {
    if a == [] {
      assert a + b == b;
    } else {
      assert (a + b)[0] == a[0] && (a + b)[1..] == a[1..] + b;
      ReservedSharesConcat(a[1..], b, actor);
    }
  }

  lemma {:induction false} ReservationAfterInsert(le: (Order, Order) -> bool, o: Order, s: seq<Order>, actor: string,
                                                  feeBps: nat)
    ensures ReservedCash(Sorting.Insert(le, o, s), actor, feeBps) == ReservedCash([o] + s, actor, feeBps)
    ensures ReservedShares(Sorting.Insert(le, o, s), actor) == ReservedShares([o] + s, actor)
  {
    hide ReservePerShare;
    assert ([o] + s)[1..] == s;
    if s != [] && !le(o, s[0]) {
      ReservationAfterInsert(le, o, s[1..], actor, feeBps);
      assert ([o] + s[1..])[1..] == s[1..];
    }
  }

  /** A reservation does not depend on the order in which orders stand. */
  lemma {:induction false} ReservationIgnoresOrder(le: (Order, Order) -> bool, s: seq<Order>, actor: string,
                                                   feeBps: nat)
    ensures ReservedCash(Sorting.SortBy(le, s), actor, feeBps) == ReservedCash(s, actor, feeBps)
    ensures ReservedShares(Sorting.SortBy(le, s), actor) == ReservedShares(s, actor)
  {
    hide ReservePerShare;
    if s != [] {
      ReservationIgnoresOrder(le, s[1..], actor, feeBps);
      ReservationAfterInsert(le, s[0], Sorting.SortBy(le, s[1..]), actor, feeBps);
    }
  }

  function SumCash(ids: seq<string>, accounts: map<string, Account>): int {
    if ids == [] then 0 else (if ids[0] in accounts then accounts[ids[0]].cash else 0) + SumCash(ids[1..], accounts)
  }

  function SumShares(ids: seq<string>, accounts: map<string, Account>): int {
    if ids == [] then 0
    else (if ids[0] in accounts then accounts[ids[0]].inventory else 0) + SumShares(ids[1..], accounts)
  }

  /** Changing one account changes the totals by that account's change. */
  lemma {:induction false} SumsFollowOneAccount(ids: seq<string>, accounts: map<string, Account>, id: string,
                                                a: Account)
    requires Sorting.Distinct(ids) && id in accounts
    ensures SumCash(ids, accounts[id := a])
      == SumCash(ids, accounts) + if id in ids then a.cash - accounts[id].cash else 0
    ensures SumShares(ids, accounts[id := a])
      == SumShares(ids, accounts) + if id in ids then a.inventory - accounts[id].inventory else 0
  {
    if ids != [] {
      assert ids == [ids[0]] + ids[1..];
      SumsFollowOneAccount(ids[1..], accounts, id, a);
      assert ids[0] == id ==> id !in ids[1..];
    }
  }

  predicate SolventAccount(a: Account) {
    0 <= a.reservedCash <= a.cash && 0 <= a.reservedInventory <= a.inventory
  }

  ghost predicate AccountsOk(b: Book) {
    && b.feeBps <= MAX_FEE_BPS && |b.ids| <= MAX_ACCOUNTS && Sorting.Distinct(b.ids)
    && (forall id :: id in b.accounts <==> id in b.ids)
    && (forall id :: id in b.accounts ==> b.accounts[id].id == id && SolventAccount(b.accounts[id]))
  }

  ghost predicate OrderOk(b: Book, o: Order, side: Side) {
    && o.side == side && o.actor in b.accounts && o.id in b.used
    && 1 <= o.remaining <= MAX_QUANTITY && MIN_PRICE_CENTS <= o.price <= MAX_PRICE_CENTS
  }

  ghost predicate OrdersOk(b: Book) {
    && (forall i :: 0 <= i < |b.bids| ==> OrderOk(b, b.bids[i], Buy))
    && (forall i :: 0 <= i < |b.asks| ==> OrderOk(b, b.asks[i], Sell))
  }

  ghost predicate UniqueIds(b: Book) {
    && (forall i, j :: 0 <= i < j < |b.bids| ==> b.bids[i].id != b.bids[j].id)
    && (forall i, j :: 0 <= i < j < |b.asks| ==> b.asks[i].id != b.asks[j].id)
    && (forall i, j :: 0 <= i < |b.bids| && 0 <= j < |b.asks| ==> b.bids[i].id != b.asks[j].id)
  }

  ghost predicate Prioritised(b: Book) {
    Sorting.Ordered(BookOrder(true), b.bids) && Sorting.Ordered(BookOrder(false), b.asks)
  }

  ghost predicate Uncrossed(b: Book) {
    forall i, j :: 0 <= i < |b.bids| && 0 <= j < |b.asks| ==> b.bids[i].price < b.asks[j].price
  }

  ghost predicate ReservationsExact(b: Book) {
    forall id :: id in b.accounts ==>
      && b.accounts[id].reservedCash == ReservedCash(b.bids, id, b.feeBps)
      && b.accounts[id].reservedInventory == ReservedShares(b.asks, id)
  }

  /** Cash with the fee pool, and shares, never change in total. */
  ghost predicate Conserved(b: Book, cash: int, shares: int) {
    && SumCash(b.ids, b.accounts) + b.feePool == cash && SumShares(b.ids, b.accounts) == shares && 0 <= b.feePool
    && cash <= MAX_ACCOUNTS * MAX_CASH_CENTS && shares <= MAX_ACCOUNTS * MAX_INVENTORY_SHARES
  }

  ghost predicate ValidBook(b: Book, cash: int, shares: int) {
    && AccountsOk(b) && OrdersOk(b) && UniqueIds(b) && Prioritised(b) && Uncrossed(b) && ReservationsExact(b)
    && Conserved(b, cash, shares)
  }

  lemma {:induction false} SumsBoundEach(ids: seq<string>, accounts: map<string, Account>, id: string)
    requires forall i :: i in accounts ==> accounts[i].cash >= 0 && accounts[i].inventory >= 0
    ensures SumCash(ids, accounts) >= 0 && SumShares(ids, accounts) >= 0
    ensures id in ids && id in accounts ==>
      accounts[id].cash <= SumCash(ids, accounts) && accounts[id].inventory <= SumShares(ids, accounts)
  {
    if ids != [] {
      SumsBoundEach(ids[1..], accounts, id);
      assert id in ids ==> id == ids[0] || id in ids[1..];
    }
  }

  /** Balances stay far inside the safe integers, because the totals do. */
  lemma BalancesAreSafe(b: Book, cash: int, shares: int, id: string)
    requires AccountsOk(b) && Conserved(b, cash, shares) && id in b.accounts
    ensures b.accounts[id].cash <= MAX_SAFE && b.accounts[id].inventory <= MAX_SAFE
  {
    SumsBoundEach(b.ids, b.accounts, id);
  }
}
