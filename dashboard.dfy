/** The manager dashboard's booking list: the month choices offered by the
    filter form, and the optional year and month filters on the bookings. */
module Dashboard {
  import opened Wrappers
  import opened Bookings

  /** `calendar.month_name` in the default (English) locale; entry 0 is the
      empty string, as in Python. */
  const MonthNames: seq<string> := ["", "January", "February", "March", "April", "May", "June",
                                    "July", "August", "September", "October", "November", "December"]

  /** The pairs (i, month name) for i from `first` up to 12, in order. */
  function MonthsFrom(first: int): (r: seq<(int, string)>)
    requires 1 <= first <= 13
    ensures |r| == 13 - first
    ensures forall k :: 0 <= k < |r| ==> r[k] == (first + k, MonthNames[first + k])
    decreases 13 - first
  {
    if first == 13 then [] else [(first, MonthNames[first])] + MonthsFrom(first + 1)
  }

  /** The dashboard's month list: exactly the twelve months, numbered 1..12
      in ascending order, each with its own name. */
  function MonthChoices(): (r: seq<(int, string)>)
    ensures |r| == 12
    ensures forall k :: 0 <= k < 12 ==> r[k].0 == k + 1 && r[k].1 == MonthNames[k + 1]
    ensures forall i, j :: 0 <= i < j < 12 ==> r[i].0 < r[j].0
  {
    MonthsFrom(1)
  }

  /** A booking passes the dashboard's selection when it matches the
      selected year (if any) and the selected month (if any). */
  predicate Selected(b: Booking, selYear: Option<int>, selMonth: Option<int>)
  {
    (selYear.Some? ==> InYear(b, selYear.value)) && (selMonth.Some? ==> InMonth(b, selMonth.value))
  }

  /** The dashboard's booking list after the optional filters. A missing or
      empty query parameter is `None` and applies no filter. */
  function DashboardBookings(bs: seq<Booking>, selYear: Option<int>, selMonth: Option<int>): (r: seq<Booking>)
    ensures forall b :: b in r <==> b in bs && Selected(b, selYear, selMonth)
    ensures selYear.None? && selMonth.None? ==> r == bs
  {
    var byYear := if selYear.Some? then FilterYear(bs, selYear.value) else bs;
    if selMonth.Some? then FilterMonth(byYear, selMonth.value) else byYear
  }

  /** The dashboard lists every selected booking exactly as often as the
      bookings hold it, and no other booking. */
  lemma DashboardCounts(bs: seq<Booking>, selYear: Option<int>, selMonth: Option<int>)
    ensures forall x ::
              multiset(DashboardBookings(bs, selYear, selMonth))[x] ==
              if Selected(x, selYear, selMonth) then multiset(bs)[x] else 0
  {
    var byYear := if selYear.Some? then FilterYear(bs, selYear.value) else bs;
    if selYear.Some? {
      FilterYearCounts(bs, selYear.value);
    }
    if selMonth.Some? {
      FilterMonthCounts(byYear, selMonth.value);
    }
  }

  /** The dashboard keeps the order of the bookings: the list for two lists
      one after the other is the two lists' own lists one after the other. */
  lemma DashboardConcat(xs: seq<Booking>, ys: seq<Booking>, selYear: Option<int>, selMonth: Option<int>)
    ensures DashboardBookings(xs + ys, selYear, selMonth) ==
      DashboardBookings(xs, selYear, selMonth) + DashboardBookings(ys, selYear, selMonth)
  {
    var xy := if selYear.Some? then FilterYear(xs, selYear.value) else xs;
    var yy := if selYear.Some? then FilterYear(ys, selYear.value) else ys;
    if selYear.Some? {
      FilterYearConcat(xs, ys, selYear.value);
    }
    if selMonth.Some? {
      FilterMonthConcat(xy, yy, selMonth.value);
    }
  }
}
