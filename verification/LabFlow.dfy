/** Order flow at the best quotes of the laboratory book: what a change of the quotes adds to the running total. */
module LabFlow {
  import opened Wrappers
  import opened LabState

  /** The best quote of either side, with all that rests at its price. */
  datatype Top = Top(bid: Option<nat>, bidSize: nat, ask: Option<nat>, askSize: nat)

  /** The shares at the front of a side that share one price. */
  function LeadSize(orders: seq<Order>, price: nat): nat {
    if orders == [] || orders[0].price != price then 0 else orders[0].remaining + LeadSize(orders[1..], price)
  }

  function BestPrice(orders: seq<Order>): Option<nat> { if orders == [] then None else Some(orders[0].price) }

  function BestSize(orders: seq<Order>): nat { if orders == [] then 0 else LeadSize(orders, orders[0].price) }

  function TopOf(bids: seq<Order>, asks: seq<Order>): Top {
    Top(BestPrice(bids), BestSize(bids), BestPrice(asks), BestSize(asks))
  }

  /** New depth joins where the bid improves, old depth leaves where it slips, and at one price the depth changes. */
  function BidFlow(before: Top, after: Top): int {
    if before.bid.None? then (if after.bid.None? then 0 else after.bidSize)
    else if after.bid.None? then -(before.bidSize as int)
    else if after.bid.value > before.bid.value then after.bidSize
    else if after.bid.value < before.bid.value then -(before.bidSize as int)
    else after.bidSize as int - before.bidSize as int
  }

  function AskFlow(before: Top, after: Top): int {
    if before.ask.None? then (if after.ask.None? then 0 else -(after.askSize as int))
    else if after.ask.None? then before.askSize
    else if after.ask.value < before.ask.value then -(after.askSize as int)
    else if after.ask.value > before.ask.value then before.askSize
    else before.askSize as int - after.askSize as int
  }

  function QuoteFlow(before: Top, after: Top): int { BidFlow(before, after) + AskFlow(before, after) }

  /** The book `after`, with the flow of the change from `before` added up. */
  function Flowed(before: Book, after: Book): Book {
    after.(flow := before.flow + QuoteFlow(TopOf(before.bids, before.asks), TopOf(after.bids, after.asks)))
  }
}
