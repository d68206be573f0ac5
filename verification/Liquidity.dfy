/**
 What an order book holds: resting rows, external quotes and the checks that the finite planner
 makes before it trusts them. Prices are integer cents.
 */
module Liquidity {
  import opened Wrappers
  import opened Numbers

  const MAX_ROWS := 100_000
  const MAX_REQUESTED_QTY := 1_000_000_000
  const DEFAULT_MAX_SLICES := 10_000
  const MAX_SLICES := 100_000

  datatype Side = Buy | Sell | Short | Cover {
    /** True for the sides that take from the asks. */
    predicate Buying() { Buy? || Cover? }
  }

  /** The fields of a resting row that no execution ever changes or reads. */
  datatype Label = Label(orderId: Option<string>, side: Side, virtual: bool, expiresAtTick: int,
                         mmId: Option<string>, tag: Option<string>)

  datatype Row = Row(mark: Label, account: Option<string>, price: int, qty: int, time: real,
                     sequence: Option<real>, displayQty: Option<int>, hiddenQty: Option<int>)

  datatype Quote = Quote(price: int, size: int, time: Option<real>, sequence: Option<real>)

  datatype PlanError = BadQuantity | BadSliceCap | BadPrice | BadClock | TooManyRows | HiddenBehindZero
    | NotionalOverflow

  /** A resting row as the planner works on it: what it was read as, and what it shows and hides by now. */
  datatype State = State(index: nat, order: Row, price: int, time: real, sequence: real, qty: nat, hidden: nat,
                         hadHidden: bool, display: nat, tradeable: bool, revealed: bool)

  datatype QuoteState = QuoteState(index: nat, price: int, time: real, sequence: real, size: nat)

  datatype Reading<+T> = Bad(error: PlanError) | Skip | Keep(state: T)

  predicate IsQuantity(q: int) { 0 <= q <= MAX_SAFE }

  predicate IsPrice(p: int) { 0 < p <= MAX_SAFE }

  function Notional(quantity: int, price: int): int { quantity * price }

  function HiddenOf(row: Row): int {
    if row.hiddenQty.Some? then row.hiddenQty.value else 0
  }

  /** The sequence number with which a row is read at position `index`. */
  function TurnOf(row: Row, index: nat): real { if row.sequence.Some? then row.sequence.value else index as real }

  function QuoteTurn(quote: Quote, index: nat): real {
    if quote.sequence.Some? then quote.sequence.value else index as real
  }

  function QuoteTime(quote: Quote): real { if quote.time.Some? then quote.time.value else 0.0 }

  predicate Excluded(row: Row, exclude: Option<string>) { exclude.Some? && row.account == exclude }

  function ReadRow(row: Row, index: nat, exclude: Option<string>): Reading<State> {
    if !IsQuantity(row.qty) || !IsQuantity(HiddenOf(row)) then Bad(BadQuantity)
    else if row.qty == 0 then (if HiddenOf(row) > 0 then Bad(HiddenBehindZero) else Skip)
    else if !IsPrice(row.price) then Bad(BadPrice)
    else if Notional(row.qty + HiddenOf(row), row.price) > MAX_SAFE then Bad(NotionalOverflow)
    else if row.displayQty.Some? && !IsQuantity(row.displayQty.value) then Bad(BadQuantity)
    else if row.time < 0.0 || (row.sequence.Some? && row.sequence.value < 0.0) then Bad(BadClock)
    else Keep(State(index, row, row.price, row.time, TurnOf(row, index), row.qty, HiddenOf(row), row.hiddenQty.Some?,
                    if row.displayQty.Some? && row.displayQty.value > 0 then row.displayQty.value else row.qty,
                    !Excluded(row, exclude), false))
  }

  function ReadQuote(row: Quote, index: nat): Reading<QuoteState> {
    if !IsQuantity(row.size) then Bad(BadQuantity)
    else if row.size == 0 then Skip
    else if !IsPrice(row.price) then Bad(BadPrice)
    else if Notional(row.size, row.price) > MAX_SAFE then Bad(NotionalOverflow)
    else if (row.time.Some? && row.time.value < 0.0) || (row.sequence.Some? && row.sequence.value < 0.0)
    then Bad(BadClock)
    else Keep(QuoteState(index, row.price, QuoteTime(row), QuoteTurn(row, index), row.size))
  }

  /** The states of the first `n` rows, or the first complaint. */
  function StatesOf(rows: seq<Row>, exclude: Option<string>, n: nat): Result<seq<State>, PlanError>
    requires n <= |rows|
  {
    if n == 0 then Success([])
    else
      var head := StatesOf(rows, exclude, n - 1);
      if head.Failure? then head
      else
        match ReadRow(rows[n - 1], n - 1, exclude)
        case Bad(e) => Failure(e)
        case Skip => head
        case Keep(s) => Success(head.value + [s])
  }

  function QuotesOf(rows: seq<Quote>, n: nat): Result<seq<QuoteState>, PlanError>
    requires n <= |rows|
  {
    if n == 0 then Success([])
    else
      var head := QuotesOf(rows, n - 1);
      if head.Failure? then head
      else
        match ReadQuote(rows[n - 1], n - 1)
        case Bad(e) => Failure(e)
        case Skip => head
        case Keep(s) => Success(head.value + [s])
  }

  lemma {:induction false} StatesKeepFailing(rows: seq<Row>, exclude: Option<string>, n: nat)
    requires n <= |rows| && StatesOf(rows, exclude, n).Failure?
    ensures StatesOf(rows, exclude, |rows|) == StatesOf(rows, exclude, n)
    decreases |rows| - n
  {
    if n < |rows| { StatesKeepFailing(rows, exclude, n + 1); }
  }

  lemma {:induction false} QuotesKeepFailing(rows: seq<Quote>, n: nat)
    requires n <= |rows| && QuotesOf(rows, n).Failure?
    ensures QuotesOf(rows, |rows|) == QuotesOf(rows, n)
    decreases |rows| - n
  {
    if n < |rows| { QuotesKeepFailing(rows, n + 1); }
  }

  method BuildRestingStates(rows: seq<Row>, exclude: Option<string>) returns (r: Result<seq<State>, PlanError>)
    ensures r == if |rows| > MAX_ROWS then Failure(TooManyRows) else StatesOf(rows, exclude, |rows|)
  {
    if |rows| > MAX_ROWS { return Failure(TooManyRows); }
    var states := [];
    var index := 0;
    while index < |rows|
      invariant index <= |rows| && StatesOf(rows, exclude, index) == Success(states)
    {
      match ReadRow(rows[index], index, exclude) {
        case Bad(e) =>
          StatesKeepFailing(rows, exclude, index + 1);
          return Failure(e);
        case Skip =>
        case Keep(s) => states := states + [s];
      }
      index := index + 1;
    }
    return Success(states);
  }

  method BuildExternalStates(rows: seq<Quote>) returns (r: Result<seq<QuoteState>, PlanError>)
    ensures r == if |rows| > MAX_ROWS then Failure(TooManyRows) else QuotesOf(rows, |rows|)
  {
    if |rows| > MAX_ROWS { return Failure(TooManyRows); }
    var states := [];
    var index := 0;
    while index < |rows|
      invariant index <= |rows| && QuotesOf(rows, index) == Success(states)
    {
      match ReadQuote(rows[index], index) {
        case Bad(e) =>
          QuotesKeepFailing(rows, index + 1);
          return Failure(e);
        case Skip =>
        case Keep(s) => states := states + [s];
      }
      index := index + 1;
    }
    return Success(states);
  }

  /** Every kept state is the reading of the row it points at, in row order. */
  ghost predicate ReadsRows(states: seq<State>, rows: seq<Row>, exclude: Option<string>, n: nat) {
    && (forall k :: 0 <= k < |states| ==>
        states[k].index < n <= |rows| && ReadRow(rows[states[k].index], states[k].index, exclude) == Keep(states[k]))
    && (forall j, k :: 0 <= j < k < |states| ==> states[j].index < states[k].index)
  }

  lemma {:induction false} StatesReadRows(rows: seq<Row>, exclude: Option<string>, n: nat)
    requires n <= |rows| && StatesOf(rows, exclude, n).Success?
    ensures ReadsRows(StatesOf(rows, exclude, n).value, rows, exclude, n)
  {
    if n > 0 {
      StatesReadRows(rows, exclude, n - 1);
    }
  }

  /** No row that shows shares is overlooked. */
  lemma {:induction false} StatesCoverRows(rows: seq<Row>, exclude: Option<string>, n: nat, i: nat) returns (k: nat)
    requires i < n <= |rows| && StatesOf(rows, exclude, n).Success? && rows[i].qty != 0
    ensures k < |StatesOf(rows, exclude, n).value| && StatesOf(rows, exclude, n).value[k].index == i
  {
    if i == n - 1 {
      k := |StatesOf(rows, exclude, n - 1).value|;
    } else {
      k := StatesCoverRows(rows, exclude, n - 1, i);
    }
  }

  ghost predicate ReadsQuotes(states: seq<QuoteState>, rows: seq<Quote>, n: nat) {
    && (forall k :: 0 <= k < |states| ==>
        states[k].index < n <= |rows| && ReadQuote(rows[states[k].index], states[k].index) == Keep(states[k]))
    && (forall j, k :: 0 <= j < k < |states| ==> states[j].index < states[k].index)
  }

  lemma {:induction false} StatesReadQuotes(rows: seq<Quote>, n: nat)
    requires n <= |rows| && QuotesOf(rows, n).Success?
    ensures ReadsQuotes(QuotesOf(rows, n).value, rows, n)
  {
    if n > 0 {
      StatesReadQuotes(rows, n - 1);
    }
  }

  lemma {:induction false} StatesCoverQuotes(rows: seq<Quote>, n: nat, i: nat) returns (k: nat)
    requires i < n <= |rows| && QuotesOf(rows, n).Success? && rows[i].size != 0
    ensures k < |QuotesOf(rows, n).value| && QuotesOf(rows, n).value[k].index == i
  {
    if i == n - 1 {
      k := |QuotesOf(rows, n - 1).value|;
    } else {
      k := StatesCoverQuotes(rows, n - 1, i);
    }
  }
}
