/** Trade timestamps, to the minute, and the fixed dates of the settlement schedule. */
module Calendar {

  /** A trade timestamp. Dates parsed from a trade file carry midnight; the
      disclosure cut-off is the one timestamp with a time of day. */
  datatype DateTime = DateTime(year: int, month: int, day: int, hour: int, minute: int)

  /** Midnight at the start of the given day. */
  function Day(year: int, month: int, day: int): DateTime {
    DateTime(year, month, day, 0, 0)
  }

  /** Chronological order: lexicographic on (year, month, day, hour, minute). */
  predicate AtOrBefore(a: DateTime, b: DateTime) {
    a.year < b.year ||
    (a.year == b.year &&
      (a.month < b.month ||
      (a.month == b.month &&
        (a.day < b.day ||
        (a.day == b.day &&
          (a.hour < b.hour ||
          (a.hour == b.hour && a.minute <= b.minute)))))))
  }

  predicate Before(a: DateTime, b: DateTime) {
    !AtOrBefore(b, a)
  }

  /** AtOrBefore is a total order, so the date buckets below are well defined. */
  lemma AtOrBeforeIsTotalOrder(a: DateTime, b: DateTime, c: DateTime)
    ensures AtOrBefore(a, a)
    ensures AtOrBefore(a, b) && AtOrBefore(b, a) ==> a == b
    ensures AtOrBefore(a, b) && AtOrBefore(b, c) ==> AtOrBefore(a, c)
    ensures AtOrBefore(a, b) || AtOrBefore(b, a)
    ensures Before(a, b) <==> AtOrBefore(a, b) && a != b
  {
  }

  /** 2015-04-28 15:07, the minute the corrective disclosure was made. */
  const DisclosureTime: DateTime := DateTime(2015, 4, 28, 15, 7)
  const April28: DateTime := Day(2015, 4, 28)
  const April29: DateTime := Day(2015, 4, 29)
  const July28: DateTime := Day(2015, 7, 28)
  const July29: DateTime := Day(2015, 7, 29)
  const August2: DateTime := Day(2015, 8, 2)
  /** The date at which shares still held are valued. */
  const HeldValuationDate: DateTime := Day(2015, 10, 30)
  /** The Class Period, inclusive at both ends. */
  const ClassPeriodStart: DateTime := Day(2015, 2, 6)
  const ClassPeriodEnd: DateTime := Day(2015, 7, 28)
}
