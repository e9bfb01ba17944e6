/**
 * The bid amount rule the bids panel and the bid dialog share, and the row
 * both of them insert into `bids`.
 */
module BidAmount {
  import opened Common

  const InvalidAmount := "Please enter a valid bid amount"
  const BidSubmitted := "Bid submitted successfully!"
  const SubmitFailed := "Failed to submit bid"

  /**
   * `!amount || parseFloat(amount) <= 0`, with `parse` standing for `parseFloat`
   * and `None` for NaN. A comparison with NaN is false, so an amount that does
   * not parse is not refused by this test.
   */
  predicate AmountRefused(amount: string, parse: string -> Option<real>) {
    amount == "" || (parse(amount).Some? && parse(amount).value <= 0.0)
  }

  /** An amount that passes is non-empty and parses to a positive number or to NaN. */
  lemma PassingAmount(amount: string, parse: string -> Option<real>)
    ensures !AmountRefused(amount, parse) <==>
              amount != "" && (parse(amount) == None || parse(amount).value > 0.0)
  {
  }

  /** The row inserted for a new bid; the empty message is stored as null. */
  datatype BidInsert = BidInsert(
    requestId: string, createdById: string, amount: Option<real>, message: Option<string>)
}
