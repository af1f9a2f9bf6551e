/** One execution against an order, and the rules for reading two reports of it as one. */
module Fills {
  import opened Common

  datatype Side = Buy | Sell

  /** A quantity with the sign its side gives it. */
  function Signed(side: Side, quantity: real): real {
    if side == Buy then quantity else -quantity
  }

  datatype Liquidity = Undisclosed | Maker | Taker

  datatype Fill = Fill(
    fillId: string,
    clientOrderId: string,
    symbol: string,
    side: Side,
    price: real,
    quantity: real,
    venueOrderId: Option<string>,
    fee: Option<real>,
    feeCurrency: Option<string>,
    liquidity: Liquidity)

  /** The side of the market a nonzero position is on. */
  function SideOf(quantity: real): Side { if quantity > 0.0 then Buy else Sell }

  function SignedQuantity(fill: Fill): real { Signed(fill.side, fill.quantity) }

  /** Python's `a or b` on optional text: an empty text gives way like a missing one. */
  function OrElse(a: Option<string>, b: Option<string>): Option<string> {
    if a.Some? && a.value != "" then a else b
  }

  predicate SameExecution(a: Fill, b: Fill) {
    a.symbol == b.symbol && a.side == b.side && a.price == b.price && a.quantity == b.quantity
  }

  predicate FeesDiffer(known: Fill, report: Fill) {
    || (known.fee.Some? && report.fee.Some? && known.fee != report.fee)
    || (known.feeCurrency.Some? && report.feeCurrency.Some? && known.feeCurrency != report.feeCurrency)
  }

  /** Fill in what `known` lacks. What traded never changes, and a disputed fee keeps its pair. */
  function MergedFill(known: Fill, report: Fill): (m: Fill)
    ensures SameExecution(m, known) && m.fillId == known.fillId && m.clientOrderId == known.clientOrderId
    ensures known.fee.Some? ==> m.fee == known.fee
    ensures FeesDiffer(known, report) ==> m.fee == known.fee && m.feeCurrency == known.feeCurrency
    ensures known.liquidity != Undisclosed ==> m.liquidity == known.liquidity
  {
    var detailed := known.(
      venueOrderId := OrElse(known.venueOrderId, report.venueOrderId),
      liquidity := if known.liquidity != Undisclosed then known.liquidity else report.liquidity);
    if FeesDiffer(known, report) then detailed
    else detailed.(
      fee := if known.fee.Some? then known.fee else report.fee,
      feeCurrency := OrElse(known.feeCurrency, report.feeCurrency))
  }

  /** Merging the same report twice adds nothing the first merge did not. */
  lemma MergeIsIdempotent(known: Fill, report: Fill)
    ensures MergedFill(MergedFill(known, report), report) == MergedFill(known, report)
  {
  }
}
