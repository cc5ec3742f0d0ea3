/** Calendar dates as Python `datetime.date` sees them: a proleptic Gregorian
    day ordinal, where ordinal 1 is Monday 0001-01-01 and the largest date,
    9999-12-31, is ordinal 3652059. */
module Dates {
  import opened Results

  /** `date.min.toordinal()` and `date.max.toordinal()`. */
  const MinOrdinal: int := 1
  const MaxOrdinal: int := 3652059

  /** A `date`, identified with its ordinal. */
  type Date = d: int | MinOrdinal <= d <= MaxOrdinal witness MinOrdinal

  /** The `OverflowError` raised when date arithmetic leaves the range of `date`. */
  datatype DateError = DateOutOfRange

  /** `date.weekday()`: Monday is 0 and Sunday is 6. */
  function Weekday(d: Date): (w: nat)
    ensures w < 7
    ensures (d - w) % 7 == 1 % 7
  {
    (d + 6) % 7
  }

  /** `d + timedelta(days=n)` (and `d - timedelta(days=-n)`): the date `n` days
      later, or `OverflowError` when that day is not a `date`. */
  function AddDays(d: Date, n: int): (r: Result<Date, DateError>)
    ensures r.Ok? <==> MinOrdinal <= d + n <= MaxOrdinal
    ensures r.Ok? ==> r.value == d + n
  {
    if MinOrdinal <= d + n <= MaxOrdinal then Ok(d + n) else Err(DateOutOfRange)
  }

  /** The inclusive range `start_date <= birthday <= end_date` of the
      upcoming-birthdays query. */
  datatype Window = Window(start: Date, end: Date)

  predicate Between(lo: int, d: int, hi: int)
  {
    lo <= d <= hi
  }

  predicate InWindow(w: Window, d: int)
  {
    Between(w.start, d, w.end)
  }

  /** The dates from `lo` to `hi`, both included. */
  ghost function DatesFrom(lo: int, hi: int): set<int>
  {
    set d: int | MinOrdinal <= d <= MaxOrdinal && Between(lo, d, hi)
  }

  /** The window computed from `today`: `start_date` is today minus its weekday,
      `end_date` is `start_date` plus seven days. Going back to the Monday never
      leaves the range of `date` (ordinal 1 is a Monday); going forward a week
      does when today lies in the last, incomplete week of 9999. */
  function UpcomingWindow(today: Date): (r: Result<Window, DateError>)
    ensures r.Ok? <==> today - Weekday(today) + 7 <= MaxOrdinal
    ensures r.Ok? ==> Weekday(r.value.start) == 0
    ensures r.Ok? ==> r.value.start <= today <= r.value.start + 6
    ensures r.Ok? ==> r.value.end == r.value.start + 7
  {
    match AddDays(today, 0 - Weekday(today))
    case Err(e) => assert false; Err(e)
    case Ok(startDate) =>
      match AddDays(startDate, 7)
      case Err(e) => Err(e)
      case Ok(endDate) => Ok(Window(startDate, endDate))
  }

  /** A range of dates from `lo` to `hi` holds `hi - lo + 1` of them. */
  lemma {:induction false} DatesFromCount(lo: Date, hi: int)
    requires lo - 1 <= hi <= MaxOrdinal
    ensures |DatesFrom(lo, hi)| == hi - lo + 1
    decreases hi - lo
  {
    if hi == lo - 1 {
      assert DatesFrom(lo, hi) == {};
    } else {
      DatesFromCount(lo, hi - 1);
      assert DatesFrom(lo, hi) == DatesFrom(lo, hi - 1) + {hi};
    }
  }

  /** The window spans eight calendar days, not a seven-day week. */
  lemma WindowSpansEightDays(today: Date)
    requires UpcomingWindow(today).Ok?
    ensures var w := UpcomingWindow(today).value; |DatesFrom(w.start, w.end)| == 8
  {
    var w := UpcomingWindow(today).value;
    DatesFromCount(w.start, w.end);
  }

  /** Monday to Sunday of today's week lie in the window and the Sunday before
      does not. */
  lemma WindowCoversCurrentWeek(today: Date)
    requires UpcomingWindow(today).Ok?
    ensures var w := UpcomingWindow(today).value;
      && (forall d: Date :: w.start <= d <= w.start + 6 ==> InWindow(w, d))
      && !InWindow(w, w.start - 1)
      && Weekday(w.start) == 0
  {
  }

  /** Beyond that week the window holds exactly one more day, the following
      Monday: the two ends are the only Mondays in it. */
  lemma WindowEndsOnNextMonday(today: Date, d: Date)
    requires UpcomingWindow(today).Ok?
    requires InWindow(UpcomingWindow(today).value, d)
    ensures var w := UpcomingWindow(today).value;
      && Weekday(w.end) == 0
      && (d > w.start + 6 ==> d == w.end)
      && (Weekday(d) == 0 ==> d == w.start || d == w.end)
  {
  }
}
