/**
 The index of a world's orders by symbol and by account. It is built once for an orders table and
 rebuilt when the world gets another table; deleted orders stay in it and are filtered out on reading.
 */
module OrderIndex {
  import opened Wrappers

  class OrderRecord {
    const id: string
    const symbol: string
    const account: string

    constructor (id: string, symbol: string, account: string)
      ensures this.id == id && this.symbol == symbol && this.account == account
    {
      this.id, this.symbol, this.account := id, symbol, account;
    }
  }

  /** An orders table; two tables are the same only if they are the same object. */
  class Table {
    var ids: seq<string>
    var entries: map<string, OrderRecord>

    /** `ids` lists the keys in the order of insertion. */
    ghost predicate Valid()
      reads this
    {
      && (forall id :: id in entries <==> id in ids)
      && (forall id :: id in entries ==> entries[id].id == id)
      && (forall i, j :: 0 <= i < j < |ids| ==> ids[i] != ids[j])
    }

    constructor ()
      ensures Valid() && entries == map[] && ids == []
    {
      ids, entries := [], map[];
    }
  }

  /** For each key the records registered under it, first registered first. */
  type Lists = map<string, seq<OrderRecord>>

  datatype Index = Index(table: Table, symbols: Lists, accounts: Lists)

  function ListOf(m: Lists, key: string): seq<OrderRecord> { if key in m then m[key] else [] }

  function Adding(m: Lists, key: string, o: OrderRecord): Lists {
    if o in ListOf(m, key) then m else m[key := ListOf(m, key) + [o]]
  }

  function Add(index: Index, o: OrderRecord): Index {
    index.(symbols := Adding(index.symbols, o.symbol, o), accounts := Adding(index.accounts, o.account, o))
  }

  /** No record twice in a list, and each under its own key. */
  ghost predicate Tidy(m: Lists, bySymbol: bool) {
    && (forall k :: k in m ==>
        forall i :: 0 <= i < |m[k]| ==> k == if bySymbol then m[k][i].symbol else m[k][i].account)
    && (forall k :: k in m ==> NoRepeats(m[k]))
  }

  lemma AddingStaysTidy(m: Lists, o: OrderRecord, bySymbol: bool)
    requires Tidy(m, bySymbol)
    ensures var key := if bySymbol then o.symbol else o.account;
      Tidy(Adding(m, key, o), bySymbol) && o in ListOf(Adding(m, key, o), key)
    ensures var key := if bySymbol then o.symbol else o.account;
      forall k, x :: x in ListOf(m, k) ==> x in ListOf(Adding(m, key, o), k)
  {
  }

  predicate LiveIn(entries: map<string, OrderRecord>, o: OrderRecord) { o.id in entries && entries[o.id] == o }

  /** Every live order is indexed under its symbol and its account. */
  ghost predicate Covers(index: Index, entries: map<string, OrderRecord>) {
    forall id :: id in entries ==> Listed(index, entries[id])
  }

  predicate Listed(index: Index, o: OrderRecord) {
    o in ListOf(index.symbols, o.symbol) && o in ListOf(index.accounts, o.account)
  }

  ghost predicate NoRepeats(s: seq<OrderRecord>) {
    forall i, j :: 0 <= i < j < |s| ==> s[i] != s[j]
  }

  /** The live ones of a list, in its order. */
  function Live(list: seq<OrderRecord>, entries: map<string, OrderRecord>): seq<OrderRecord> {
    if list == [] then [] else (if LiveIn(entries, list[0]) then [list[0]] else []) + Live(list[1..], entries)
  }

  lemma {:induction false} LiveFacts(list: seq<OrderRecord>, entries: map<string, OrderRecord>, r: seq<OrderRecord>)
    requires NoRepeats(list) && r == Live(list, entries)
    ensures NoRepeats(r)
    ensures forall i :: 0 <= i < |r| ==> r[i] in list && LiveIn(entries, r[i])
    ensures forall i :: 0 <= i < |list| && LiveIn(entries, list[i]) ==> list[i] in r
  {
    if list != [] {
      var rest := Live(list[1..], entries);
      LiveFacts(list[1..], entries, rest);
      assert forall i :: 1 <= i < |list| ==> list[i] == list[1..][i - 1];
      assert forall i :: 0 <= i < |rest| ==> rest[i] in list[1..] && rest[i] != list[0];
    }
  }

  /** A list without repetition that holds exactly the live orders with this symbol, or this account. */
  ghost predicate Selects(r: seq<OrderRecord>, entries: map<string, OrderRecord>, key: string, bySymbol: bool) {
    && NoRepeats(r)
    && (forall id ::
        id in entries && (if bySymbol then entries[id].symbol else entries[id].account) == key ==> entries[id] in r)
    && (forall i :: 0 <= i < |r| ==> LiveIn(entries, r[i]) && (if bySymbol then r[i].symbol else r[i].account) == key)
  }

  /** Filtering a tidy list that covers the table selects exactly. */
  lemma FilteredListSelects(list: seq<OrderRecord>, entries: map<string, OrderRecord>, key: string, bySymbol: bool)
    requires forall id :: id in entries ==> entries[id].id == id
    requires NoRepeats(list)
    requires forall i :: 0 <= i < |list| ==> key == if bySymbol then list[i].symbol else list[i].account
    requires forall id ::
      id in entries && (if bySymbol then entries[id].symbol else entries[id].account) == key ==> entries[id] in list
    ensures Selects(Live(list, entries), entries, key, bySymbol)
  {
    var r := Live(list, entries);
    LiveFacts(list, entries, r);
    forall i | 0 <= i < |r|
      ensures LiveIn(entries, r[i]) && (if bySymbol then r[i].symbol else r[i].account) == key
    {
      assert r[i] in list;
      var j :| 0 <= j < |list| && list[j] == r[i];
    }
  }

  lemma ListIsTidy(m: Lists, key: string, bySymbol: bool)
    requires Tidy(m, bySymbol)
    ensures var list := ListOf(m, key);
      && NoRepeats(list)
      && (forall i :: 0 <= i < |list| ==> key == if bySymbol then list[i].symbol else list[i].account)
  {
  }

  lemma AddKeepsListed(index: Index, o: OrderRecord)
    requires Tidy(index.symbols, true) && Tidy(index.accounts, false)
    ensures var after := Add(index, o);
      && Tidy(after.symbols, true) && Tidy(after.accounts, false) && after.table == index.table
      && Listed(after, o) && forall x :: Listed(index, x) ==> Listed(after, x)
  {
    AddingStaysTidy(index.symbols, o, true);
    AddingStaysTidy(index.accounts, o, false);
    hide Tidy, Adding;
  }

  lemma NothingIsTidy(index: Index)
    requires index.symbols == map[] && index.accounts == map[]
    ensures Tidy(index.symbols, true) && Tidy(index.accounts, false)
  {
  }

  /** Adding an order keeps the index tidy, and covers a table that has gained it. */
  lemma AddingCovers(index: Index, before: map<string, OrderRecord>, o: OrderRecord)
    requires Tidy(index.symbols, true) && Tidy(index.accounts, false) && Covers(index, before)
    ensures var after := Add(index, o);
      && Tidy(after.symbols, true) && Tidy(after.accounts, false)
      && Covers(after, before[o.id := o]) && after.table == index.table
  {
    AddKeepsListed(index, o);
    hide Tidy, Add, Listed;
  }

  class World {
    var orders: Table
    var index: Option<Index>

    /** The index may belong to another table; if it belongs to this one, it covers it. */
    ghost predicate Valid()
      reads this, orders
    {
      && orders.Valid()
      && (index.Some? ==> Tidy(index.value.symbols, true) && Tidy(index.value.accounts, false))
      && (index.Some? && index.value.table == orders ==> Covers(index.value, orders.entries))
    }

    constructor (orders: Table)
      requires orders.Valid()
      ensures Valid() && this.orders == orders && index.None?
    {
      this.orders, index := orders, None;
    }

    /** The index of the current table, built when there is none. */
    method Get() returns (r: Index)
      requires Valid()
      modifies this`index
      ensures Valid() && index == Some(r) && r.table == orders
    {
      if index.Some? && index.value.table == orders { return index.value; }
      hide Tidy, Add;
      r := Index(orders, map[], map[]);
      assert Tidy(r.symbols, true) && Tidy(r.accounts, false) by { NothingIsTidy(r); }
      for k := 0 to |orders.ids|
        invariant r.table == orders && Tidy(r.symbols, true) && Tidy(r.accounts, false)
        invariant forall j :: 0 <= j < k ==> Listed(r, orders.entries[orders.ids[j]])
      {
        var o := orders.entries[orders.ids[k]];
        AddKeepsListed(r, o);
        r := Add(r, o);
      }
      index := Some(r);
    }

    /** Stores an order and registers it. */
    method Place(o: OrderRecord)
      requires Valid() && o.id !in orders.entries
      modifies this`index, orders
      ensures Valid() && orders.entries == old(orders.entries)[o.id := o] && orders.ids == old(orders.ids) + [o.id]
    {
      hide Tidy, Add, Covers;
      ghost var before := orders.entries;
      orders.entries := orders.entries[o.id := o];
      orders.ids := orders.ids + [o.id];
      if index.Some? && index.value.table == orders {
        AddingCovers(index.value, before, o);
        index := Some(Add(index.value, o));
      } else {
        // Building the index finds the order in the table already; registering it again changes nothing.
        var built := Get();
        AddingCovers(built, orders.entries, o);
        assert orders.entries[o.id := o] == orders.entries;
        index := Some(Add(built, o));
      }
    }

    /** Compaction drops orders from the table and leaves the index alone. */
    method Delete(id: string)
      requires Valid() && id in orders.entries
      modifies orders
      ensures Valid() && orders.entries == old(orders.entries) - {id}
    {
      var i :| 0 <= i < |orders.ids| && orders.ids[i] == id;
      orders.entries := orders.entries - {id};
      orders.ids := orders.ids[..i] + orders.ids[i + 1..];
    }

    /** The world goes on with another table, as a restored or cloned one does. */
    method Replace(table: Table)
      requires Valid() && table.Valid() && (index.Some? ==> index.value.table != table)
      modifies this`orders
      ensures Valid() && orders == table
    {
      orders := table;
    }

    method SymbolOrders(symbol: string) returns (r: seq<OrderRecord>)
      requires Valid()
      modifies this`index
      ensures Valid() && Selects(r, orders.entries, symbol, true)
    {
      hide Selects, Live;
      var built := Get();
      ListIsTidy(built.symbols, symbol, true);
      FilteredListSelects(ListOf(built.symbols, symbol), orders.entries, symbol, true);
      r := Live(ListOf(built.symbols, symbol), orders.entries);
    }

    method AccountOrders(account: string) returns (r: seq<OrderRecord>)
      requires Valid()
      modifies this`index
      ensures Valid() && Selects(r, orders.entries, account, false)
    {
      hide Selects, Live;
      var built := Get();
      ListIsTidy(built.accounts, account, false);
      FilteredListSelects(ListOf(built.accounts, account), orders.entries, account, false);
      r := Live(ListOf(built.accounts, account), orders.entries);
    }
  }

  /** `Selects` leaves no choice but the order. */
  lemma SelectionIsUnique(a: seq<OrderRecord>, b: seq<OrderRecord>, entries: map<string, OrderRecord>, key: string,
                          bySymbol: bool)
    requires Selects(a, entries, key, bySymbol) && Selects(b, entries, key, bySymbol)
    ensures forall o :: o in a <==> o in b
  {
    forall o | o in a
      ensures o in b
    {
      var i :| 0 <= i < |a| && a[i] == o;
      assert entries[o.id] in b;
    }
    forall o | o in b
      ensures o in a
    {
      var i :| 0 <= i < |b| && b[i] == o;
      assert entries[o.id] in a;
    }
  }
}
