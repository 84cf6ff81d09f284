/** Per-share recognized loss for a matched sale and for a share still held. */
module LossRules {
  import opened Calendar
  import opened InflationSchedule

  /** Average closing price used for sales after 2015-08-02 and for held shares. */
  const AvgClosingPrice: real := 28.06

  function MinReal(a: real, b: real): real { if a <= b then a else b }
  function MaxReal(a: real, b: real): real { if a >= b then a else b }

  /** Loss per share recognized when a share bought at (purchasePrice, purchaseDate)
      is sold at (saleDate, salePrice): nothing up to the disclosure minute, then the
      smallest of the decline, the price drop and (after 2015-08-02) the drop to the
      average closing price, never below 0. */
  function SaleLossPerShare(purchasePrice: real, purchaseDate: DateTime, saleDate: DateTime, salePrice: real): (r: real)
    ensures 0.0 <= r <= Decline(purchaseDate, saleDate)
    ensures AtOrBefore(saleDate, DisclosureTime) ==> r == 0.0
    ensures r <= MaxReal(purchasePrice - salePrice, 0.0)
    ensures Before(August2, saleDate) ==> r <= MaxReal(purchasePrice - AvgClosingPrice, 0.0)
    ensures r == 0.0 || r == Decline(purchaseDate, saleDate) || r == purchasePrice - salePrice ||
            (Before(August2, saleDate) && r == purchasePrice - AvgClosingPrice)
    // after the disclosure minute r reaches the smallest applicable cap, so with the
    // upper bounds above it is exactly that cap floored at 0
    ensures Before(DisclosureTime, saleDate) ==>
      r >= MinReal(MinReal(Decline(purchaseDate, saleDate), purchasePrice - salePrice),
                   if Before(August2, saleDate) then purchasePrice - AvgClosingPrice else Decline(purchaseDate, saleDate))
  {
    if AtOrBefore(saleDate, DisclosureTime) then
      0.0
    else if AtOrBefore(saleDate, August2) then
      MaxReal(MinReal(Decline(purchaseDate, saleDate), purchasePrice - salePrice), 0.0)
    else
      MaxReal(MinReal(MinReal(Decline(purchaseDate, saleDate), purchasePrice - salePrice),
                      purchasePrice - AvgClosingPrice), 0.0)
  }

  /** Loss per share recognized for a share still held at the end of the run, valued
      at 2015-10-30 against the average closing price. */
  function HeldLossPerShare(purchasePrice: real, purchaseDate: DateTime): (r: real)
    ensures 0.0 <= r <= Decline(purchaseDate, HeldValuationDate)
    ensures r <= MaxReal(purchasePrice - AvgClosingPrice, 0.0)
    ensures r == 0.0 || r == Decline(purchaseDate, HeldValuationDate) || r == purchasePrice - AvgClosingPrice
    // with the upper bounds above: exactly the smaller cap floored at 0
    ensures r >= MinReal(Decline(purchaseDate, HeldValuationDate), purchasePrice - AvgClosingPrice)
  {
    MaxReal(MinReal(Decline(purchaseDate, HeldValuationDate), purchasePrice - AvgClosingPrice), 0.0)
  }

  /** A share held to the end counts as one sold after 2015-08-02 at the average closing price. */
  lemma HeldIsSaleAtAverageClose(purchasePrice: real, purchaseDate: DateTime)
    ensures HeldLossPerShare(purchasePrice, purchaseDate) ==
            SaleLossPerShare(purchasePrice, purchaseDate, HeldValuationDate, AvgClosingPrice)
  {
  }

  /** Per-share values of the two worked scenarios. */
  lemma PerShareExamples(boughtAt: real, soldAt: real)
    requires boughtAt == 30.00 && soldAt == 25.00
    ensures SaleLossPerShare(boughtAt, Day(2015, 3, 1), Day(2015, 8, 10), soldAt) == 1.94
    ensures HeldLossPerShare(boughtAt - 1.00, Day(2015, 7, 1)) == 0.94
  {
  }
}
