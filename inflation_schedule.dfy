/** The decline-in-inflation table: a decline per share for a (purchase, sale) pair. */
module InflationSchedule {
  import opened Calendar

  /** Decline in inflation for shares bought at `purchase` and sold (or valued) at `sale`.
      Three purchase-date buckets, each split by sale date; a purchase timestamp that
      falls in none of them (later on 2015-04-28 or later on 2015-07-28 than midnight)
      gets the fall-through 0. */
  function Decline(purchase: DateTime, sale: DateTime): (r: real)
    ensures r == 0.0 || r == 5.76 || r == 7.41 || r == 12.93 || r == 18.27
    ensures AtOrBefore(July29, purchase) ==> r == 0.0
  {
    if AtOrBefore(purchase, April28) then
      if AtOrBefore(sale, DisclosureTime) then 0.0
      else if AtOrBefore(sale, August2) then 12.93
      else 18.27
    else if AtOrBefore(April29, purchase) && AtOrBefore(purchase, July28) then
      if AtOrBefore(sale, August2) then 5.76
      else 7.41
    else if AtOrBefore(July29, purchase) then
      0.0
    else
      0.0
  }

  /** For a fixed purchase date the decline never goes down as the sale date moves later. */
  lemma DeclineNonDecreasingInSale(purchase: DateTime, sale1: DateTime, sale2: DateTime)
    requires AtOrBefore(sale1, sale2)
    ensures Decline(purchase, sale1) <= Decline(purchase, sale2)
  {
  }

  /** The steps of the table: the early bucket goes 0, 12.93, 18.27 at the disclosure
      minute and after 2015-08-02; the late bucket goes 5.76, 7.41 after 2015-08-02. */
  lemma DeclineBuckets(purchase: DateTime, sale: DateTime)
    ensures AtOrBefore(purchase, April28) ==>
      Decline(purchase, sale) ==
        (if AtOrBefore(sale, DisclosureTime) then 0.0
         else if AtOrBefore(sale, August2) then 12.93 else 18.27)
    ensures AtOrBefore(April29, purchase) && AtOrBefore(purchase, July28) ==>
      Decline(purchase, sale) == (if AtOrBefore(sale, August2) then 5.76 else 7.41)
    ensures Before(April28, purchase) && Before(purchase, April29) ==> Decline(purchase, sale) == 0.0
    ensures Before(July28, purchase) && Before(purchase, July29) ==> Decline(purchase, sale) == 0.0
  {
  }

  /** Worked values of the table. */
  lemma DeclineExamples(anySale: DateTime)
    ensures Decline(Day(2015, 4, 1), DisclosureTime) == 0.0
    ensures Decline(Day(2015, 4, 1), Day(2015, 5, 1)) == 12.93
    ensures Decline(Day(2015, 4, 1), Day(2015, 9, 1)) == 18.27
    ensures Decline(Day(2015, 5, 15), Day(2015, 7, 1)) == 5.76
    ensures Decline(Day(2015, 5, 15), Day(2015, 9, 1)) == 7.41
    ensures Decline(Day(2015, 8, 1), anySale) == 0.0
    ensures Decline(April28, DateTime(2015, 4, 28, 15, 8)) == 12.93
  {
  }
}
