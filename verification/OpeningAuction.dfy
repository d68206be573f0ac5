/** The opening auction: one price for everybody, chosen to trade the most shares. Prices are integer cents. */
module OpeningAuction {
  import opened Wrappers
  import opened Liquidity
  import opened AuctionBook

  /** The daily limits, in per cent of the base price; other markets have none. */
  datatype Band = Band(base: int, limited: bool, up: int, down: int) {
    predicate Contains(p: int) { limited ==> down * base <= 100 * p <= up * base }
  }

  function BandFor(base: int, isCN: bool, firstDay: bool): Band {
    Band(base, isCN, if firstDay then 144 else 110, if firstDay then 64 else 90)
  }

  /** The previous close, or the best bid, or one unit of money. */
  function BaseOf(prevClose: nat, bids: seq<Entry>): int
    requires bids != []
  {
    if prevClose != 0 then prevClose else if bids[0].price != 0 then bids[0].price else 100
  }

  function Distance(p: int, base: int): int { if p >= base then p - base else base - p }

  /** `p` trades more than `x`; or as much, nearer to the base; or as much, as near, at a lower price. */
  predicate Preferred(bids: seq<Entry>, asks: seq<Entry>, base: int, p: int, x: int) {
    var v, u := VolumeAt(bids, asks, p), VolumeAt(bids, asks, x);
    v > u || (v == u && (Distance(p, base) < Distance(x, base) || (Distance(p, base) == Distance(x, base) && p <= x)))
  }

  /** The price the auction owes: preferred to every price in the band, quoted or not. */
  ghost predicate IsAuctionPrice(bids: seq<Entry>, asks: seq<Entry>, band: Band, p: int) {
    band.Contains(p) && forall x :: band.Contains(x) ==> Preferred(bids, asks, band.base, p, x)
  }

  /** That leaves exactly one price. */
  lemma AuctionPriceIsUnique(bids: seq<Entry>, asks: seq<Entry>, band: Band, p: int, q: int)
    requires IsAuctionPrice(bids, asks, band, p) && IsAuctionPrice(bids, asks, band, q)
    ensures p == q
  {
    assert Preferred(bids, asks, band.base, p, q) && Preferred(bids, asks, band.base, q, p);
  }

  predicate Quoted(rows: seq<Entry>, p: int) {
    exists i :: 0 <= i < |rows| && rows[i].price == p
  }

  /** A candidate is the base or a quoted price within the band. */
  predicate Candidate(bids: seq<Entry>, asks: seq<Entry>, band: Band, p: int) {
    p == band.base || (band.Contains(p) && (Quoted(bids, p) || Quoted(asks, p)))
  }

  /** The quoted price next to `p` on the way to `base`, or `base`. */
  lemma {:induction false} Nearest(rows: seq<Entry>, p: int, base: int) returns (c: int)
    ensures p <= base ==> p <= c <= base && forall i :: 0 <= i < |rows| ==> !(p <= rows[i].price < c)
    ensures p >= base ==> base <= c <= p && forall i :: 0 <= i < |rows| ==> !(c < rows[i].price <= p)
    ensures c == base || Quoted(rows, c)
  {
    c := base;
    if rows != [] {
      c := Nearest(rows[1..], p, base);
      assert forall i :: 1 <= i < |rows| ==> rows[i] == rows[1..][i - 1];
      if p <= rows[0].price < c || c < rows[0].price <= p { c := rows[0].price; }
    }
  }

  lemma BaseIsInBand(band: Band)
    requires band.base >= 0 && band.down <= 100 <= band.up
    ensures band.Contains(band.base)
  {
  }

  lemma BandIsConvex(band: Band, p: int, q: int, c: int)
    requires band.Contains(p) && band.Contains(q) && (p <= c <= q || q <= c <= p)
    ensures band.Contains(c)
  {
  }

  /**
   Every price in the band is matched by a candidate that trades as much and lies no farther from
   the base, on the same side.
   */
  lemma SomeCandidateIsAsGood(bids: seq<Entry>, asks: seq<Entry>, band: Band, p: int) returns (c: int)
    requires Positive(bids) && Positive(asks) && band.Contains(p) && band.Contains(band.base)
    ensures Candidate(bids, asks, band, c) && VolumeAt(bids, asks, c) >= VolumeAt(bids, asks, p)
    ensures p <= c <= band.base || band.base <= c <= p
  {
    c := Nearest(bids + asks, p, band.base);
    var all := bids + asks;
    assert forall i :: 0 <= i < |bids| ==> bids[i] == all[i];
    assert forall i :: 0 <= i < |asks| ==> asks[i] == all[|bids| + i];
    assert Quoted(all, c) ==> Quoted(bids, c) || Quoted(asks, c);
    BandIsConvex(band, p, band.base, c);
    if p <= band.base {
      DepthIsFlat(bids, p, c, true);
      DepthIsMonotone(asks, p, c, false);
    } else {
      DepthIsFlat(asks, p, c, false);
      DepthIsMonotone(bids, p, c, true);
    }
  }

  /** So the best candidate is the best price of all. */
  lemma BestCandidateIsBest(bids: seq<Entry>, asks: seq<Entry>, band: Band, p: int)
    requires Positive(bids) && Positive(asks) && band.Contains(band.base) && Candidate(bids, asks, band, p)
    requires forall c :: Candidate(bids, asks, band, c) ==> Preferred(bids, asks, band.base, p, c)
    ensures IsAuctionPrice(bids, asks, band, p)
  {
    forall x | band.Contains(x)
      ensures Preferred(bids, asks, band.base, p, x)
    {
      var c := SomeCandidateIsAsGood(bids, asks, band, x);
      assert Preferred(bids, asks, band.base, p, c);
    }
  }

  /** What the auction leaves at any price, in the band or out of it: the volume beyond what has traded. */
  lemma LeftoverVolume(bids: seq<Entry>, asks: seq<Entry>, p: int, x: int)
    requires Positive(bids) && Positive(asks) && BestFirst(bids, true) && BestFirst(asks, false)
    ensures var v := VolumeAt(bids, asks, p);
      && v >= 0
      && VolumeAt(Take(bids, p, true, v), Take(asks, p, false, v), x) == Excess(VolumeAt(bids, asks, x), v)
  {
    hide Depth, Take;
    DepthIsNotNegative(bids, p, true);
    DepthIsNotNegative(asks, p, false);
    var v := VolumeAt(bids, asks, p);
    DepthAfter(bids, p, true, v, x);
    DepthAfter(asks, p, false, v, x);
  }

  /** No row left could trade with another at a price in the band. */
  lemma NothingLeftInBand(bids: seq<Entry>, asks: seq<Entry>, band: Band, p: int, x: int)
    requires Positive(bids) && Positive(asks) && BestFirst(bids, true) && BestFirst(asks, false)
    requires IsAuctionPrice(bids, asks, band, p) && band.Contains(x)
    ensures var v := VolumeAt(bids, asks, p);
      v >= 0 && VolumeAt(Take(bids, p, true, v), Take(asks, p, false, v), x) == 0
  {
    LeftoverVolume(bids, asks, p, x);
    assert Preferred(bids, asks, band.base, p, x);
  }

  ghost predicate Uncrossed(bids: seq<Entry>, asks: seq<Entry>) {
    forall i, j :: 0 <= i < |bids| && 0 <= j < |asks| ==> bids[i].price < asks[j].price
  }

  lemma {:induction false} DepthCounts(rows: seq<Entry>, p: int, bid: bool, i: nat)
    requires Positive(rows) && i < |rows| && Willing(rows[i], p, bid)
    ensures Depth(rows, p, bid) > 0
  {
    DepthIsNotNegative(rows[1..], p, bid);
    if i > 0 { DepthCounts(rows[1..], p, bid, i - 1); }
  }

  lemma {:induction false} DepthHasRow(rows: seq<Entry>, p: int, bid: bool) returns (i: nat)
    requires Depth(rows, p, bid) > 0
    ensures i < |rows| && Willing(rows[i], p, bid)
  {
    i := 0;
    if !Willing(rows[0], p, bid) {
      i := DepthHasRow(rows[1..], p, bid);
      i := i + 1;
    }
  }

  lemma CrossedRowsTrade(bids: seq<Entry>, asks: seq<Entry>, i: nat, j: nat)
    requires Positive(bids) && Positive(asks) && i < |bids| && j < |asks|
    ensures bids[i].price >= asks[j].price ==> VolumeAt(bids, asks, bids[i].price) > 0
  {
    if bids[i].price >= asks[j].price {
      DepthCounts(bids, bids[i].price, true, i);
      DepthCounts(asks, bids[i].price, false, j);
    }
  }

  /** A book is uncrossed exactly when no price would trade anything. */
  lemma UncrossedMeansNoVolume(bids: seq<Entry>, asks: seq<Entry>)
    requires Positive(bids) && Positive(asks)
    ensures Uncrossed(bids, asks) <==> forall x :: VolumeAt(bids, asks, x) <= 0
  {
    hide Depth;
    if forall x :: VolumeAt(bids, asks, x) <= 0 {
      forall i, j | 0 <= i < |bids| && 0 <= j < |asks|
        ensures bids[i].price < asks[j].price
      {
        CrossedRowsTrade(bids, asks, i, j);
      }
    }
    forall x | VolumeAt(bids, asks, x) > 0
      ensures !Uncrossed(bids, asks)
    {
      var i := DepthHasRow(bids, x, true);
      var j := DepthHasRow(asks, x, false);
      assert bids[i].price >= asks[j].price;
    }
  }

  /** The auction leaves an uncrossed book exactly when no price outside the band would have traded more. */
  lemma UncrossedExactlyWhen(bids: seq<Entry>, asks: seq<Entry>, band: Band, p: int)
    requires Positive(bids) && Positive(asks) && BestFirst(bids, true) && BestFirst(asks, false) && Identified(bids)
    requires Identified(asks)
    requires IsAuctionPrice(bids, asks, band, p)
    ensures var v := VolumeAt(bids, asks, p);
      && v >= 0
      && (Uncrossed(Take(bids, p, true, v), Take(asks, p, false, v)) <==>
          forall x :: !band.Contains(x) ==> VolumeAt(bids, asks, x) <= v)
  {
    hide Take, IsAuctionPrice, Uncrossed, VolumeAt;
    var v := VolumeAt(bids, asks, p);
    LeftoverVolume(bids, asks, p, p);
    TakeKeepsShape(bids, p, true, v);
    TakeKeepsShape(asks, p, false, v);
    UncrossedMeansNoVolume(Take(bids, p, true, v), Take(asks, p, false, v));
    forall x
      ensures VolumeAt(Take(bids, p, true, v), Take(asks, p, false, v), x) == Excess(VolumeAt(bids, asks, x), v)
      ensures band.Contains(x) ==> VolumeAt(bids, asks, x) <= v
    {
      LeftoverVolume(bids, asks, p, x);
      if band.Contains(x) { NothingLeftInBand(bids, asks, band, p, x); }
    }
  }

  /** Which holds in particular when every row is priced within the band. */
  lemma RowsInBandUncross(bids: seq<Entry>, asks: seq<Entry>, band: Band, p: int)
    requires Positive(bids) && Positive(asks) && BestFirst(bids, true) && BestFirst(asks, false) && Identified(bids)
    requires Identified(asks)
    requires IsAuctionPrice(bids, asks, band, p) && band.Contains(band.base)
    requires forall i :: 0 <= i < |bids| ==> band.Contains(bids[i].price)
    requires forall i :: 0 <= i < |asks| ==> band.Contains(asks[i].price)
    ensures var v := VolumeAt(bids, asks, p);
      v >= 0 && Uncrossed(Take(bids, p, true, v), Take(asks, p, false, v))
  {
    hide Take, IsAuctionPrice, Depth;
    UncrossedExactlyWhen(bids, asks, band, p);
    forall x | !band.Contains(x)
      ensures VolumeAt(bids, asks, x) <= 0
    {
      if VolumeAt(bids, asks, x) > 0 {
        var i := DepthHasRow(bids, x, true);
        var j := DepthHasRow(asks, x, false);
        BandIsConvex(band, bids[i].price, asks[j].price, x);
      }
    }
  }

  /** Without that the book can stay crossed: two rows above the limit trade with each other at no permitted price. */
  lemma OutOfBandStaysCrossed() returns (bids: seq<Entry>, asks: seq<Entry>, band: Band, p: int)
    ensures band == BandFor(1_000, true, false) && |bids| == 1 && |asks| == 1 && bids[0].price == 1_300
    ensures asks[0].price == 1_200
    ensures Positive(bids) && Positive(asks) && BestFirst(bids, true) && BestFirst(asks, false) && Identified(bids)
    ensures Identified(asks)
    ensures IsAuctionPrice(bids, asks, band, p) && VolumeAt(bids, asks, p) == 0
    ensures !Uncrossed(Take(bids, p, true, 0), Take(asks, p, false, 0))
  {
    band := BandFor(1_000, true, false);
    bids := [Entry(0, None, None, Buy, 1_300, 100, false, None, None)];
    asks := [Entry(1, None, None, Sell, 1_200, 100, false, None, None)];
    p := 1_000;
    assert bids[1..] == [] && asks[1..] == [];
    forall x | band.Contains(x)
      ensures Preferred(bids, asks, band.base, p, x)
    {
      assert Depth(asks, x, false) == 0;
    }
    TakeNothing(bids, p, true);
    TakeNothing(asks, p, false);
    assert bids[0].price >= asks[0].price;
  }

  /** One half of an auction trade, with the row it fills. */
  datatype Fill = Fill(key: nat, orderId: Option<string>, account: Option<string>, side: Side, price: int, qty: int,
                       virtual: bool,
                       mmId: Option<string>, tag: Option<string>)

  function FillOf(e: Entry, price: int, qty: int): Fill {
    Fill(e.key, e.orderId, e.account, e.side, price, qty, e.virtual, e.mmId, e.tag)
  }

  function Filled(fills: seq<Fill>, key: nat): int {
    if fills == [] then 0 else (if fills[0].key == key then fills[0].qty else 0) + Filled(fills[1..], key)
  }

  function VirtualOnes(fills: seq<Fill>): seq<Fill> {
    if fills == [] then [] else (if fills[0].virtual then [fills[0]] else []) + VirtualOnes(fills[1..])
  }

  lemma {:induction false} FilledConcat(a: seq<Fill>, b: seq<Fill>, key: nat)
    ensures Filled(a + b, key) == Filled(a, key) + Filled(b, key)
  {
    if a == [] {
      assert a + b == b;
    } else {
      assert (a + b)[1..] == a[1..] + b;
      FilledConcat(a[1..], b, key);
    }
  }

  lemma {:induction false} VirtualOnesConcat(a: seq<Fill>, b: seq<Fill>)
    ensures VirtualOnes(a + b) == VirtualOnes(a) + VirtualOnes(b)
  {
    if a == [] {
      assert a + b == b;
    } else {
      assert (a + b)[1..] == a[1..] + b;
      VirtualOnesConcat(a[1..], b);
    }
  }

  /** Fills come as a bid's half followed by an ask's half of the same size, both at the auction price. */
  ghost predicate Paired(fills: seq<Fill>, bids: seq<Entry>, asks: seq<Entry>, price: int) {
    |fills| % 2 == 0 && forall i :: 0 <= i < |fills| ==> PairedAt(fills, i, bids, asks, price)
  }

  ghost predicate PairedAt(fills: seq<Fill>, i: nat, bids: seq<Entry>, asks: seq<Entry>, price: int)
    requires i < |fills|
  {
    && fills[i].qty > 0
    && (i % 2 == 0 ==> i + 1 < |fills| && fills[i + 1].qty == fills[i].qty && FillsRow(fills[i], bids, price, true))
    && (i % 2 == 1 ==> FillsRow(fills[i], asks, price, false))
  }

  ghost predicate FillsRow(f: Fill, rows: seq<Entry>, price: int, bid: bool) {
    exists e :: e in rows && Willing(e, price, bid) && f == FillOf(e, price, f.qty)
  }

  /** What each row lost is what its fills say. */
  ghost predicate Accounted(fills: seq<Fill>, bids: seq<Entry>, asks: seq<Entry>, bidsLeft: seq<Entry>,
                            asksLeft: seq<Entry>) {
    forall key: nat ::
      Filled(fills, key) + Held(bidsLeft, key) + Held(asksLeft, key) == Held(bids, key) + Held(asks, key)
  }

  /** How the rows still waiting relate to the queue that was formed: the row at `i` has `left` shares to go. */
  ghost predicate Waiting(rows: seq<Entry>, price: int, bid: bool, queue: seq<Entry>, i: int, left: int) {
    && 0 <= i <= |queue|
    && Queue(rows, price, bid) == (if i < |queue| then [queue[i].(qty := left)] + queue[i + 1..] else [])
    && (i < |queue| ==> 0 < left <= queue[i].qty)
  }

  lemma PairAppends(fills: seq<Fill>, bids: seq<Entry>, asks: seq<Entry>, price: int, b: Entry, a: Entry, q: int)
    requires Paired(fills, bids, asks, price) && b in bids && a in asks && Willing(b, price, true)
    requires Willing(a, price, false) && q > 0
    ensures Paired(fills + [FillOf(b, price, q), FillOf(a, price, q)], bids, asks, price)
  {
    var more := fills + [FillOf(b, price, q), FillOf(a, price, q)];
    assert FillsRow(more[|fills|], bids, price, true) && FillsRow(more[|fills| + 1], asks, price, false);
    hide FillsRow;
    forall i | 0 <= i < |more|
      ensures PairedAt(more, i, bids, asks, price)
    {
      if i < |fills| {
        assert PairedAt(fills, i, bids, asks, price);
        assert more[i] == fills[i] && (i % 2 == 0 ==> more[i + 1] == fills[i + 1]);
      } else {
        assert i == |fills| || i == |fills| + 1;
      }
    }
    assert |more| == |fills| + 2 && |more| % 2 == 0;
  }
}
