/** The auction as it runs: collecting candidate prices, choosing one, and serving both queues at it. */
module AuctionDesk {
  import opened Numbers
  import opened AuctionBook
  import opened OpeningAuction
  import Sorting

  const AT_MOST: (int, int) -> bool := (a, b) => a <= b

  /** Adds the rows' prices that lie within the band and are not there yet. */
  method AddCandidates(start: seq<int>, rows: seq<Entry>, band: Band) returns (prices: seq<int>)
    ensures forall p :: p in prices <==> p in start || (Quoted(rows, p) && band.Contains(p))
  {
    prices := start;
    for k := 0 to |rows|
      invariant forall p :: p in prices <==> p in start || (Quoted(rows[..k], p) && band.Contains(p))
    {
      var p := rows[k].price;
      forall x
        ensures Quoted(rows[..k + 1], x) <==> Quoted(rows[..k], x) || x == p
      {
        OneMoreQuoted(rows, k, x);
      }
      if band.Contains(p) && p !in prices { prices := prices + [p]; }
    }
    assert rows[..|rows|] == rows;
  }

  lemma OneMoreQuoted(rows: seq<Entry>, k: nat, x: int)
    requires k < |rows|
    ensures Quoted(rows[..k + 1], x) <==> Quoted(rows[..k], x) || x == rows[k].price
  {
    if x == rows[k].price { assert rows[..k + 1][k].price == x; }
    if Quoted(rows[..k], x) {
      var i :| 0 <= i < k && rows[..k][i].price == x;
      assert rows[..k + 1][i].price == x;
    }
  }

  /** All candidates in ascending order. */
  method CollectCandidates(bids: seq<Entry>, asks: seq<Entry>, band: Band) returns (ladder: seq<int>)
    ensures Sorting.Ordered(AT_MOST, ladder) && forall p :: p in ladder <==> Candidate(bids, asks, band, p)
  {
    hide Quoted;
    var prices := AddCandidates([], bids, band);
    prices := AddCandidates(prices, asks, band);
    if band.base !in prices { prices := prices + [band.base]; }
    ladder := Sorting.SortBy(AT_MOST, prices);
    Sorting.SortIsOrderedPermutation(AT_MOST, prices);
    Sorting.PermutationKeepsMembers(prices, ladder);
  }

  /** Walks the candidates in ascending order and keeps the best so far. */
  method ChoosePrice(bids: seq<Entry>, asks: seq<Entry>, band: Band) returns (price: int)
    requires Positive(bids) && Positive(asks) && band.Contains(band.base)
    ensures IsAuctionPrice(bids, asks, band, price)
  {
    hide IsAuctionPrice, VolumeAt, Quoted, Positive, Candidate, Distance;
    var ladder := CollectCandidates(bids, asks, band);
    BaseIsCandidate(bids, asks, band);
    price := ladder[0];
    var volume := VolumeAt(bids, asks, price);
    for k := 1 to |ladder|
      invariant price in ladder[..k] && volume == VolumeAt(bids, asks, price)
      invariant forall m :: 0 <= m < k ==> Preferred(bids, asks, band.base, price, ladder[m])
    {
      var v := VolumeAt(bids, asks, ladder[k]);
      EarlierIsLower(ladder, k, price);
      if v > volume || (v == volume && Distance(ladder[k], band.base) < Distance(price, band.base)) {
        price, volume := ladder[k], v;
      }
    }
    assert price in ladder;
    forall c | Candidate(bids, asks, band, c)
      ensures Preferred(bids, asks, band.base, price, c)
    {
      assert c in ladder;
    }
    BestCandidateIsBest(bids, asks, band, price);
  }

  lemma BaseIsCandidate(bids: seq<Entry>, asks: seq<Entry>, band: Band)
    ensures Candidate(bids, asks, band, band.base)
  {
  }

  lemma EarlierIsLower(ladder: seq<int>, k: nat, p: int)
    requires k < |ladder| && Sorting.Ordered(AT_MOST, ladder) && p in ladder[..k]
    ensures p <= ladder[k]
  {
    var i :| 0 <= i < k && ladder[i] == p;
    assert AT_MOST(ladder[i], ladder[k]);
  }

  /** After `t` shares: what is left of the side, and where its queue stands. */
  ghost predicate Served(rows0: seq<Entry>, rows: seq<Entry>, price: int, bid: bool, t: int, queue: seq<Entry>, i: int,
                         left: int) {
    && t >= 0 && rows == Take(rows0, price, bid, t) && t + Depth(rows, price, bid) == Depth(rows0, price, bid)
    && Waiting(rows, price, bid, queue, i, left)
  }

  /** One step at one queue: the row at `i` gives `q` shares. */
  lemma RowGives(rows0: seq<Entry>, rows: seq<Entry>, price: int, bid: bool, t: int, queue: seq<Entry>, i: int,
                 left: int, q: int)
    requires Positive(rows0) && Identified(rows0) && Positive(queue)
    requires Served(rows0, rows, price, bid, t, queue, i, left) && i < |queue| && 0 < q <= left
    ensures var after := RemoveEntry(rows, queue[i].key, q);
      && (q < left ==> Served(rows0, after, price, bid, t + q, queue, i, left - q))
      && (q == left ==>
          Served(rows0, after, price, bid, t + q, queue, i + 1, if i + 1 < |queue| then queue[i + 1].qty else 0))
      && forall key: nat :: Held(after, key) == Held(rows, key) - if key == queue[i].key then q else 0
  {
    hide Depth, Queue, Held;
    TakeKeepsShape(rows0, price, bid, t);
    HeadServed(rows, price, bid, q);
    TakesCompose(rows0, price, bid, t, q);
    HeadFits(rows, price, bid, q);
    TakeUsesDepth(rows, price, bid, q);
    NextWaits(rows, price, bid, queue, i, left, q);
    forall key: nat
      ensures Held(RemoveEntry(rows, queue[i].key, q), key) == Held(rows, key) - if key == queue[i].key then q else 0
    {
      RemovedIsAccounted(rows, price, bid, q, key);
    }
  }

  lemma ServingStarts(rows: seq<Entry>, price: int, bid: bool)
    requires Positive(rows)
    ensures var queue := Queue(rows, price, bid);
      && Positive(queue) && (forall e :: e in queue ==> e in rows && Willing(e, price, bid))
      && Served(rows, rows, price, bid, 0, queue, 0, if queue != [] then queue[0].qty else 0)
  {
    QueueIsWilling(rows, price, bid);
    TakeNothing(rows, price, bid);
    var queue := Queue(rows, price, bid);
    hide Queue, Take;
    forall i | 0 <= i < |queue|
      ensures queue[i].qty > 0 && queue[i].price > 0
    {
      assert queue[i] in rows;
    }
    if queue != [] { assert queue == [queue[0].(qty := queue[0].qty)] + queue[1..]; }
  }

  /** The book and its fills stay accounted for when one pair of halves is added. */
  lemma PairAccounts(fills: seq<Fill>, bids0: seq<Entry>, asks0: seq<Entry>, bids: seq<Entry>, asks: seq<Entry>,
                     b: Entry, a: Entry, price: int, q: int, bidsLeft: seq<Entry>, asksLeft: seq<Entry>)
    requires Accounted(fills, bids0, asks0, bids, asks)
    requires forall key: nat :: Held(bidsLeft, key) == Held(bids, key) - if key == b.key then q else 0
    requires forall key: nat :: Held(asksLeft, key) == Held(asks, key) - if key == a.key then q else 0
    ensures Accounted(fills + [FillOf(b, price, q), FillOf(a, price, q)], bids0, asks0, bidsLeft, asksLeft)
  {
    hide Held;
    var pair := [FillOf(b, price, q), FillOf(a, price, q)];
    assert pair[1..] == [FillOf(a, price, q)] && pair[1..][1..] == [];
    forall key: nat
      ensures Filled(fills + pair, key) + Held(bidsLeft, key) + Held(asksLeft, key)
        == Held(bids0, key) + Held(asks0, key)
    {
      FilledConcat(fills, pair, key);
      assert Filled(pair[1..], key) == if a.key == key then q else 0;
    }
  }

  /** When a queue runs out, everything that was willing has been served. */
  lemma QueueRunsOut(rows0: seq<Entry>, rows: seq<Entry>, price: int, bid: bool, t: int, queue: seq<Entry>, i: int,
                     left: int)
    requires Positive(rows0) && Identified(rows0) && Served(rows0, rows, price, bid, t, queue, i, left)
    ensures 0 <= t <= Depth(rows0, price, bid) && (i == |queue| ==> t == Depth(rows0, price, bid))
    ensures Positive(rows) && Identified(rows)
  {
    hide Depth, Queue, Take;
    TakeKeepsShape(rows0, price, bid, t);
    DepthIsNotNegative(rows, price, bid);
    if i == |queue| { EmptyQueue(rows, price, bid); }
  }

  lemma {:induction false} HeadFits(rows: seq<Entry>, price: int, bid: bool, q: int)
    requires Positive(rows) && Queue(rows, price, bid) != [] && q <= Queue(rows, price, bid)[0].qty
    ensures q <= Depth(rows, price, bid)
  {
    DepthIsNotNegative(rows[1..], price, bid);
    if !Willing(rows[0], price, bid) { HeadFits(rows[1..], price, bid, q); }
  }

  lemma NextWaits(rows: seq<Entry>, price: int, bid: bool, queue: seq<Entry>, i: int, left: int, q: int)
    requires Positive(rows) && Identified(rows) && Waiting(rows, price, bid, queue, i, left) && i < |queue|
    requires 0 < q <= left
    requires Positive(queue)
    ensures var after := Take(rows, price, bid, q);
      && (q < left ==> Waiting(after, price, bid, queue, i, left - q))
      && (q == left ==> Waiting(after, price, bid, queue, i + 1, if i + 1 < |queue| then queue[i + 1].qty else 0))
  {
    hide Take, Queue;
    HeadServed(rows, price, bid, q);
    if q == left && i + 1 < |queue| {
      assert queue[i + 1..] == [queue[i + 1].(qty := queue[i + 1].qty)] + queue[i + 2..];
    }
  }

  /** The book of one symbol. */
  class OpeningBook {
    var bids: seq<Entry>
    var asks: seq<Entry>

    ghost predicate Valid()
      reads this
    {
      Positive(bids) && Positive(asks) && Identified(bids) && Identified(asks)
    }

    constructor (bids: seq<Entry>, asks: seq<Entry>)
      requires Positive(bids) && Positive(asks) && Identified(bids) && Identified(asks)
      ensures Valid() && this.bids == bids && this.asks == asks
    {
      this.bids, this.asks := bids, asks;
    }

    /** Serves both queues at `price` until one of them is empty. */
    method ServeQueues(price: int) returns (fills: seq<Fill>, hooks: seq<Fill>)
      requires Valid()
      modifies this
      ensures Valid()
      ensures var v := VolumeAt(old(bids), old(asks), price);
        v >= 0 && bids == Take(old(bids), price, true, v) && asks == Take(old(asks), price, false, v)
      ensures Paired(fills, old(bids), old(asks), price) && Accounted(fills, old(bids), old(asks), bids, asks)
      ensures hooks == VirtualOnes(fills)
    {
      hide Positive, Identified, Willing, Depth, Queue, Take, Served, Paired, Accounted, Held, RemoveEntry, VirtualOnes;
      ghost var bids0, asks0, t := bids, asks, 0;
      fills, hooks := [], [];
      var bidQueue, askQueue := Queue(bids, price, true), Queue(asks, price, false);
      var i, j := 0, 0;
      var bidLeft := if bidQueue != [] then bidQueue[0].qty else 0;
      var askLeft := if askQueue != [] then askQueue[0].qty else 0;
      ServingStarts(bids, price, true);
      ServingStarts(asks, price, false);
      NothingAccounts(bids, asks, price);
      while i < |bidQueue| && j < |askQueue|
        invariant 0 <= i <= |bidQueue| && 0 <= j <= |askQueue|
        invariant Served(bids0, bids, price, true, t, bidQueue, i, bidLeft)
        invariant Served(asks0, asks, price, false, t, askQueue, j, askLeft)
        invariant Paired(fills, bids0, asks0, price) && Accounted(fills, bids0, asks0, bids, asks)
        invariant hooks == VirtualOnes(fills)
        decreases |bidQueue| - i + |askQueue| - j
      {
        var b, a := bidQueue[i], askQueue[j];
        LeftIsPositive(bids0, bids, price, true, t, bidQueue, i, bidLeft);
        LeftIsPositive(asks0, asks, price, false, t, askQueue, j, askLeft);
        var qty := Lesser(bidLeft, askLeft);
        PairAppends(fills, bids0, asks0, price, b, a, qty);
        RowGives(bids0, bids, price, true, t, bidQueue, i, bidLeft, qty);
        RowGives(asks0, asks, price, false, t, askQueue, j, askLeft, qty);
        PairAccounts(fills, bids0, asks0, bids, asks, b, a, price, qty, RemoveEntry(bids, b.key, qty),
                     RemoveEntry(asks, a.key, qty));
        HooksFollow(fills, b, a, price, qty);
        fills := fills + [FillOf(b, price, qty), FillOf(a, price, qty)];
        if b.virtual { hooks := hooks + [FillOf(b, price, qty)]; }
        if a.virtual { hooks := hooks + [FillOf(a, price, qty)]; }
        bids := RemoveEntry(bids, b.key, qty);
        asks := RemoveEntry(asks, a.key, qty);
        bidLeft := bidLeft - qty;
        askLeft := askLeft - qty;
        t := t + qty;
        if bidLeft <= 0 {
          i := i + 1;
          bidLeft := if i < |bidQueue| then bidQueue[i].qty else 0;
        }
        if askLeft <= 0 {
          j := j + 1;
          askLeft := if j < |askQueue| then askQueue[j].qty else 0;
        }
      }
      QueueRunsOut(bids0, bids, price, true, t, bidQueue, i, bidLeft);
      QueueRunsOut(asks0, asks, price, false, t, askQueue, j, askLeft);
      assert bids == Take(bids0, price, true, t) && asks == Take(asks0, price, false, t) by {
        ServedIsTaken(bids0, bids, price, true, t, bidQueue, i, bidLeft);
        ServedIsTaken(asks0, asks, price, false, t, askQueue, j, askLeft);
      }
    }

    /** The auction. Without rows on both sides nothing trades and the previous close stands. */
    method RunOpeningAuction(prevClose: nat, isCN: bool, firstDay: bool)
      returns (price: int, fills: seq<Fill>, hooks: seq<Fill>)
      requires Valid()
      modifies this
      ensures Valid()
      ensures old(bids) == [] || old(asks) == [] ==>
        price == prevClose && fills == [] && hooks == [] && bids == old(bids) && asks == old(asks)
      ensures old(bids) != [] && old(asks) != [] ==>
        var v := VolumeAt(old(bids), old(asks), price);
        && IsAuctionPrice(old(bids), old(asks), BandFor(BaseOf(prevClose, old(bids)), isCN, firstDay), price)
        && v >= 0 && bids == Take(old(bids), price, true, v) && asks == Take(old(asks), price, false, v)
        && Paired(fills, old(bids), old(asks), price) && Accounted(fills, old(bids), old(asks), bids, asks)
        && hooks == VirtualOnes(fills)
    {
      if bids == [] || asks == [] { return prevClose, [], []; }
      hide Positive, Identified, IsAuctionPrice, VolumeAt, Take, Paired, Accounted;
      var band := BandFor(BaseOf(prevClose, bids), isCN, firstDay);
      BaseIsPositive(prevClose, bids);
      BaseIsInBand(band);
      price := ChoosePrice(bids, asks, band);
      fills, hooks := ServeQueues(price);
    }
  }

  lemma BaseIsPositive(prevClose: nat, bids: seq<Entry>)
    requires Positive(bids) && bids != []
    ensures BaseOf(prevClose, bids) > 0
  {
  }

  lemma NothingAccounts(bids: seq<Entry>, asks: seq<Entry>, price: int)
    ensures Paired([], bids, asks, price) && Accounted([], bids, asks, bids, asks) && VirtualOnes([]) == []
  {
  }

  lemma LeftIsPositive(rows0: seq<Entry>, rows: seq<Entry>, price: int, bid: bool, t: int, queue: seq<Entry>, i: int,
                       left: int)
    requires Served(rows0, rows, price, bid, t, queue, i, left) && i < |queue|
    ensures left > 0
  {
  }

  lemma ServedIsTaken(rows0: seq<Entry>, rows: seq<Entry>, price: int, bid: bool, t: int, queue: seq<Entry>, i: int,
                      left: int)
    requires Served(rows0, rows, price, bid, t, queue, i, left)
    ensures rows == Take(rows0, price, bid, t)
  {
  }

  lemma HooksFollow(fills: seq<Fill>, b: Entry, a: Entry, price: int, q: int)
    ensures VirtualOnes(fills + [FillOf(b, price, q), FillOf(a, price, q)])
      == VirtualOnes(fills) + (if b.virtual then [FillOf(b, price, q)] else [])
        + (if a.virtual then [FillOf(a, price, q)] else [])
  {
    var pair := [FillOf(b, price, q), FillOf(a, price, q)];
    assert pair[1..] == [FillOf(a, price, q)] && pair[1..][1..] == [];
    VirtualOnesConcat(fills, pair);
    assert VirtualOnes(pair[1..]) == if a.virtual then [FillOf(a, price, q)] else [];
  }
}
