/** Integer amounts of the remaster market: fees as exact ceilings, checked sums, currency exchange. */
module Money {
  import opened Wrappers
  import opened Numbers

  datatype Market = CN | HK | US

  datatype Side = Buy | Sell | Short | Cover {
    predicate Selling() { Sell? || Short? }
    predicate Buying() { Buy? || Cover? }
  }

  datatype RuleError = InvalidInput | AmountOverflow | InvalidLedger | SelfTrade | InsufficientCash
    | InsufficientPosition
    | ShortNotAllowed | InsufficientMargin | NoBorrow | InsufficientShort | NegativeCash | SameMarket | TransferTooSmall
    | FundTooSmall | InsufficientFund
    | ExposureExists | ResetBlocked | SeasonLocked | OrderNotFound | CancelLocked

  const MAX_AMOUNT := 1_000_000_000_000

  function SafeAdd(left: int, right: int): Result<int, RuleError> {
    if -MAX_AMOUNT <= left + right <= MAX_AMOUNT then Success(left + right) else Failure(AmountOverflow)
  }

  function Multiply(price: int, quantity: int): Result<int, RuleError> {
    if 0 <= price * quantity <= MAX_AMOUNT then Success(price * quantity) else Failure(InvalidInput)
  }

  function Max(a: int, b: int): int { if a >= b then a else b }

  function Fees(market: Market, side: Side, turnover: int): int {
    match market
    case CN => Max(500, Ceil(turnover * 25, 100_000)) + (if side.Selling() then Ceil(turnover, 1_000) else 0)
    case HK => Max(5_000, Ceil(turnover * 3, 10_000)) + (if side.Selling() then Ceil(turnover * 13, 10_000) else 0)
    case US => if side.Selling() then Max(1, Ceil(turnover * 28, 1_000_000)) else 0
  }

  lemma FeesAreNotNegative(market: Market, side: Side, turnover: int)
    requires turnover >= 0
    ensures Fees(market, side, turnover) >= 0
  {
  }

  function Rate(m: Market): int {
    match m
    case CN => 1_000_000
    case HK => 920_000
    case US => 7_120_000
  }

  datatype Conversion = Conversion(received: int, fee: int)

  function Exchange(amount: int, from: Market, to: Market): Conversion {
    var fee := Ceil(amount, 1_000);
    Conversion((amount - fee) * Rate(from) / Rate(to), fee)
  }

  /** What an amount is worth in the unit the rates are quoted in. */
  function Worth(amount: int, m: Market): int { amount * Rate(m) }

  /** One conversion never creates worth: what arrives is worth at most what was sent less the fee. */
  lemma ExchangeLosesWorth(amount: int, from: Market, to: Market)
    requires amount >= 0
    ensures var c := Exchange(amount, from, to);
      && 0 <= c.fee <= amount && c.received >= 0
      && Worth(c.received, to) <= Worth(amount - c.fee, from) <= Worth(amount, from)
  {
    var fee := Ceil(amount, 1_000);
    var n := (amount - fee) * Rate(from);
    assert n / Rate(to) * Rate(to) <= n;
  }

  /** The amount left after converting along `path`. */
  function Along(amount: int, path: seq<Market>): int
    requires path != []
    decreases |path|
  {
    if |path| == 1 then amount else Along(Exchange(amount, path[0], path[1]).received, path[1..])
  }

  lemma {:induction false} ChainLosesWorth(amount: int, path: seq<Market>)
    requires path != [] && amount >= 0
    ensures 0 <= Along(amount, path) && Worth(Along(amount, path), path[|path| - 1]) <= Worth(amount, path[0])
    decreases |path|
  {
    if |path| > 1 {
      ExchangeLosesWorth(amount, path[0], path[1]);
      ChainLosesWorth(Exchange(amount, path[0], path[1]).received, path[1..]);
    }
  }

  /** No round trip through the currencies, however long, returns more than was sent. */
  lemma NoArbitrage(amount: int, path: seq<Market>)
    requires |path| >= 1 && amount >= 0 && path[|path| - 1] == path[0]
    ensures Along(amount, path) <= amount
  {
    ChainLosesWorth(amount, path);
  }

  /** A round trip that leaves home loses at least one cent to fees. */
  lemma RoundTripCosts(amount: int, path: seq<Market>)
    requires |path| >= 2 && amount > 0 && path[|path| - 1] == path[0]
    ensures Along(amount, path) < amount
  {
    hide Exchange;
    var c := Exchange(amount, path[0], path[1]);
    ExchangeLosesWorth(amount, path[0], path[1]);
    FeeIsCharged(amount, path[0], path[1]);
    ChainLosesWorth(c.received, path[1..]);
    LessIsWorthLess(Along(amount, path), amount, c.fee, path[0]);
  }

  lemma FeeIsCharged(amount: int, from: Market, to: Market)
    requires amount > 0
    ensures Exchange(amount, from, to).fee >= 1
  {
  }

  lemma LessIsWorthLess(a: int, b: int, fee: int, m: Market)
    requires Worth(a, m) <= Worth(b - fee, m) && fee >= 1
    ensures a < b
  {
  }
}
