/** The first world: houses, a stocked market maker and ten computer players in every market. */
module NewWorld {
  import opened Numbers
  import opened Money
  import opened Accounts
  import opened Commands
  import opened GameWorld

  datatype Instrument = Instrument(symbol: string, market: Market, price: nat)

  const MAKER_CASH := 50_000_000_000
  const AI_PLAYERS := 10

  function MarketName(m: Market): string {
    match m case CN => "CN" case HK => "HK" case US => "US"
  }

  function MakerId(m: Market): AccountId { Owned("maker-" + MarketName(m), m) }

  function AiId(i: nat, m: Market): AccountId
    requires i < AI_PLAYERS
  {
    Owned("ai-" + [DIGITS[i]] + "-" + MarketName(m), m)
  }

  lemma NamesDiffer(i: nat, j: nat, m: Market)
    requires i < AI_PLAYERS && j < AI_PLAYERS
    ensures AiId(i, m) != MakerId(m) && (i != j ==> AiId(i, m) != AiId(j, m))
  {
    var a, b := AiId(i, m).owner, AiId(j, m).owner;
    assert a[0] == 'a' && MakerId(m).owner[0] == 'm';
    assert a[3] == DIGITS[i] && b[3] == DIGITS[j];
  }

  /** The maker holds exactly the opening stock of the first `n` instruments of its market. */
  ghost predicate Supplied(a: Account, m: Market, listing: seq<Instrument>, n: nat) {
    && n <= |listing| && a.actor == Maker && a.cash == MAKER_CASH && a.debt == 0
    && (forall k :: 0 <= k < n && listing[k].market == m ==>
      PositionOf(a, listing[k].symbol) == Position([Lot(MAKER_STOCK, listing[k].price, 0, 0)], 0, 0, 0))
    && (forall k :: n <= k < |listing| ==> PositionOf(a, listing[k].symbol) == EMPTY)
  }

  ghost predicate Established(w: World, m: Market, listing: seq<Instrument>) {
    && MakerId(m) in w.accounts && Supplied(w.accounts[MakerId(m)], m, listing, |listing|)
    && forall i: nat :: i < AI_PLAYERS ==>
       AiId(i, m) in w.accounts && w.accounts[AiId(i, m)] == EmptyAccount(AiId(i, m), Ai).(cash := INITIAL_CASH)
  }

  ghost predicate OtherMarketsStay(v: World, w: World, m: Market) {
    forall id: AccountId :: id.market != m ==>
      (id in v.accounts <==> id in w.accounts) && (id in w.accounts ==> v.accounts[id] == w.accounts[id])
  }

  /** No player yet, and the treasury has issued nothing. */
  ghost predicate Untouched(w: World, m: Market) {
    && House(Treasury, m) in w.accounts && w.accounts[House(Treasury, m)].cash == 0
    && forall id :: id in w.accounts && id.market == m ==> id.House?
  }

  predicate DistinctSymbols(listing: seq<Instrument>) {
    forall j, k :: 0 <= j < k < |listing| ==> listing[j].symbol != listing[k].symbol
  }

  lemma StockSupplies(w: World, m: Market, listing: seq<Instrument>, k: nat)
    requires DistinctSymbols(listing) && k < |listing| && MakerId(m) in w.accounts
    requires Supplied(w.accounts[MakerId(m)], m, listing, k)
    ensures listing[k].market == m ==>
      Supplied(Stocked(w, MakerId(m), listing[k].symbol, listing[k].price).accounts[MakerId(m)], m, listing, k + 1)
    ensures listing[k].market != m ==> Supplied(w.accounts[MakerId(m)], m, listing, k + 1)
  {
  }

  method StockMaker(e: Engine, m: Market, listing: seq<Instrument>)
    requires e.Valid() && DistinctSymbols(listing) && MakerId(m) in e.accounts
    requires e.accounts[MakerId(m)] == EmptyAccount(MakerId(m), Maker).(cash := MAKER_CASH)
    modifies e`accounts
    ensures e.Valid() && MakerId(m) in e.accounts && Supplied(e.accounts[MakerId(m)], m, listing, |listing|)
    ensures e.accounts == old(e.accounts)[MakerId(m) := e.accounts[MakerId(m)]]
  {
    hide Sound, Supplied;
    NothingSupplied(m, listing);
    for k := 0 to |listing|
      invariant e.Valid() && MakerId(m) in e.accounts && Supplied(e.accounts[MakerId(m)], m, listing, k)
      invariant e.accounts == old(e.accounts)[MakerId(m) := e.accounts[MakerId(m)]]
    {
      StockSupplies(e.View(), m, listing, k);
      if listing[k].market == m { e.Stock(MakerId(m), listing[k].symbol, listing[k].price); }
    }
  }

  lemma NothingSupplied(m: Market, listing: seq<Instrument>)
    ensures Supplied(EmptyAccount(MakerId(m), Maker).(cash := MAKER_CASH), m, listing, 0)
  {
  }

  method OpenMarket(e: Engine, m: Market, listing: seq<Instrument>)
    requires e.Valid() && Untouched(e.View(), m) && DistinctSymbols(listing)
    modifies e
    ensures e.Valid() && e.orders == old(e.orders) && e.quotes == old(e.quotes) && e.days == old(e.days)
    ensures Established(e.View(), m, listing) && OtherMarketsStay(e.View(), old(e.View()), m)
  {
    hide Sound, Supplied, EmptyAccount, MakerId, AiId;
    MakerIsOwned(m);
    var error := e.AddAccount(MakerId(m), Maker, MAKER_CASH);
    StockMaker(e, m, listing);
    ghost var maker := e.accounts[MakerId(m)];
    assert e.accounts[House(Treasury, m)].cash == -MAKER_CASH;
    for i := 0 to AI_PLAYERS
      invariant e.Valid() && e.orders == old(e.orders) && e.quotes == old(e.quotes) && e.days == old(e.days)
      invariant MakerId(m) in e.accounts && e.accounts[MakerId(m)] == maker && House(Treasury, m) in e.accounts
      invariant e.accounts[House(Treasury, m)].cash == -MAKER_CASH - i * INITIAL_CASH
      invariant forall k: nat :: k < i ==>
        AiId(k, m) in e.accounts && e.accounts[AiId(k, m)] == EmptyAccount(AiId(k, m), Ai).(cash := INITIAL_CASH)
      invariant forall k: nat :: i <= k < AI_PLAYERS ==> AiId(k, m) !in e.accounts
      invariant OtherMarketsStay(e.View(), old(e.View()), m)
    {
      AisDiffer(i, m);
      error := e.AddAccount(AiId(i, m), Ai, INITIAL_CASH);
    }
  }

  lemma MakerIsOwned(m: Market)
    ensures MakerId(m).Owned? && MakerId(m).market == m
    ensures forall k: nat :: k < AI_PLAYERS ==> AiId(k, m) != MakerId(m) && AiId(k, m).Owned? && AiId(k, m).market == m
  {
    forall k: nat | k < AI_PLAYERS
      ensures AiId(k, m) != MakerId(m)
    {
      NamesDiffer(k, k, m);
    }
  }

  lemma AisDiffer(i: nat, m: Market)
    requires i < AI_PLAYERS
    ensures AiId(i, m).Owned? && AiId(i, m).market == m && AiId(i, m) != MakerId(m)
    ensures forall k: nat :: k < AI_PLAYERS && k != i ==> AiId(k, m) != AiId(i, m)
  {
    NamesDiffer(i, i, m);
    forall k: nat | k < AI_PLAYERS && k != i
      ensures AiId(k, m) != AiId(i, m)
    {
      NamesDiffer(k, i, m);
    }
  }

  lemma HousesAreUntouched(w: World)
    requires forall id :: id in w.accounts ==> id.House? && w.accounts[id] == EmptyAccount(id, System)
    requires forall p, m :: House(p, m) in w.accounts
    ensures forall m :: Untouched(w, m)
  {
  }

  /** What was true of one market stays true while another one opens. */
  lemma OpeningElsewhere(v: World, w: World, m: Market, other: Market, listing: seq<Instrument>)
    requires OtherMarketsStay(v, w, other) && m != other
    ensures Untouched(w, m) ==> Untouched(v, m)
    ensures Established(w, m, listing) ==> Established(v, m, listing)
  {
    hide Supplied;
    assert MakerId(m).market == m && forall i: nat :: i < AI_PLAYERS ==> AiId(i, m).market == m;
  }

  /** Builds the first world out of a list of instruments. */
  method CreateWorld(listing: seq<Instrument>) returns (e: Engine)
    requires DistinctSymbols(listing)
    ensures fresh(e) && e.Valid() && e.orders == []
    ensures forall m :: Established(e.View(), m, listing)
    ensures forall k :: 0 <= k < |listing| ==>
      listing[k].symbol in e.quotes && e.quotes[listing[k].symbol] == listing[k].price
  {
    hide Sound, Untouched, Established, OtherMarketsStay, EmptyAccount;
    e := new Engine();
    ghost var houses := e.accounts;
    for k := 0 to |listing|
      invariant e.Valid() && e.orders == [] && e.accounts == houses
      invariant forall j :: 0 <= j < k ==>
        listing[j].symbol in e.quotes && e.quotes[listing[j].symbol] == listing[j].price
    {
      e.List(listing[k].symbol, listing[k].price);
    }
    HousesAreUntouched(e.View());
    ghost var w0 := e.View();
    OpenMarket(e, CN, listing);
    ghost var w1 := e.View();
    OpeningElsewhere(w1, w0, HK, CN, listing);
    OpeningElsewhere(w1, w0, US, CN, listing);
    OpenMarket(e, HK, listing);
    ghost var w2 := e.View();
    OpeningElsewhere(w2, w1, CN, HK, listing);
    OpeningElsewhere(w2, w1, US, HK, listing);
    OpenMarket(e, US, listing);
    OpeningElsewhere(e.View(), w2, CN, US, listing);
    OpeningElsewhere(e.View(), w2, HK, US, listing);
    assert forall m :: Established(e.View(), m, listing) by {
      forall m
        ensures Established(e.View(), m, listing)
      {
        assert m == CN || m == HK || m == US;
      }
    }
  }
}
