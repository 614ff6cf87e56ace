/** Option type for values that may be absent (a nullable foreign key, a
    query parameter that was not sent). */
module Wrappers {
  datatype Option<+T> = None | Some(value: T)
}

/** The booking records that the manager views read. Dates are abstract: a
    calendar year, a month in 1..12 and a day ordinal (days since some fixed
    epoch), so that the difference of two ordinals is the number of days
    between the two dates, as Python's `(d2 - d1).days`. */
module Bookings {
  import opened Wrappers

  type Month = m: int | 1 <= m <= 12 witness 1

  datatype Date = Date(year: int, month: Month, ordinal: int)

  /** A room; only its nightly price matters here, in the smallest currency
      unit (cents), so that revenue is exact. */
  datatype Room = Room(number: string, price: int)

  /** A reservation. `room` is a nullable foreign key in the database. */
  datatype Booking = Booking(room: Option<Room>, checkIn: Date, checkOut: Date, guests: int, children: int)

  /** Every booking the statistics read has a room: `b.room.price` would
      fail on a booking without one. */
  predicate HasRoom(b: Booking)
  {
    b.room.Some?
  }

  predicate AllHaveRooms(bs: seq<Booking>)
  {
    forall b <- bs :: HasRoom(b)
  }

  /** Every booking that checks in in `year` has a room: the statistics for
      `year` read the room of those bookings only. */
  predicate YearHasRooms(bs: seq<Booking>, year: int)
  {
    forall b <- bs :: InYear(b, year) ==> HasRoom(b)
  }

  /** The lookup `check_in__year=year`. */
  predicate InYear(b: Booking, year: int)
  {
    b.checkIn.year == year
  }

  /** The lookup `check_in__month=month`. */
  predicate InMonth(b: Booking, month: int)
  {
    b.checkIn.month == month
  }

  /** Number of nights of a stay: check-out minus check-in in days. Nothing
      orders the two dates, so this can be zero or negative. */
  function Nights(b: Booking): int
  {
    b.checkOut.ordinal - b.checkIn.ordinal
  }

  /** What a stay earns: its nights times the nightly price of its room. */
  function Revenue(b: Booking): int
    requires HasRoom(b)
  {
    Nights(b) * b.room.value.price
  }

  /** `qs.filter(check_in__year=year)`: keeps the bookings whose check-in is
      in the given year (in order and as often as they occur, as
      FilterYearConcat and FilterYearCounts state). */
  function FilterYear(bs: seq<Booking>, year: int): (r: seq<Booking>)
    ensures |r| <= |bs|
    ensures forall b :: b in r <==> b in bs && InYear(b, year)
  {
    if bs == [] then []
    else
      var rest := FilterYear(bs[..|bs| - 1], year);
      var b := bs[|bs| - 1];
      assert bs == bs[..|bs| - 1] + [b];
      if InYear(b, year) then rest + [b] else rest
  }

  /** `qs.filter(check_in__month=month)`: keeps the bookings whose check-in
      is in the given month (in order and as often as they occur, as
      FilterMonthConcat and FilterMonthCounts state). */
  function FilterMonth(bs: seq<Booking>, month: int): (r: seq<Booking>)
    ensures |r| <= |bs|
    ensures forall b :: b in r <==> b in bs && InMonth(b, month)
  {
    if bs == [] then []
    else
      var rest := FilterMonth(bs[..|bs| - 1], month);
      var b := bs[|bs| - 1];
      assert bs == bs[..|bs| - 1] + [b];
      if InMonth(b, month) then rest + [b] else rest
  }

  /** The year filter keeps the order of the list: filtering two lists
      one after the other gives the two filtered lists one after the other. */
  lemma {:induction false} FilterYearConcat(xs: seq<Booking>, ys: seq<Booking>, year: int)
    ensures FilterYear(xs + ys, year) == FilterYear(xs, year) + FilterYear(ys, year)
  {
    if ys == [] {
      assert xs + ys == xs;
    } else {
      var p := ys[..|ys| - 1];
      var b := ys[|ys| - 1];
      assert (xs + ys)[..|xs + ys| - 1] == xs + p;
      assert (xs + ys)[|xs + ys| - 1] == b;
      FilterYearConcat(xs, p, year);
      if InYear(b, year) {
        assert FilterYear(xs + ys, year) == FilterYear(xs + p, year) + [b];
        assert FilterYear(ys, year) == FilterYear(p, year) + [b];
      } else {
        assert FilterYear(xs + ys, year) == FilterYear(xs + p, year);
        assert FilterYear(ys, year) == FilterYear(p, year);
      }
    }
  }

  /** The month filter keeps the order of the list, as FilterYearConcat. */
  lemma {:induction false} FilterMonthConcat(xs: seq<Booking>, ys: seq<Booking>, month: int)
    ensures FilterMonth(xs + ys, month) == FilterMonth(xs, month) + FilterMonth(ys, month)
  {
    if ys == [] {
      assert xs + ys == xs;
    } else {
      var p := ys[..|ys| - 1];
      var b := ys[|ys| - 1];
      assert (xs + ys)[..|xs + ys| - 1] == xs + p;
      assert (xs + ys)[|xs + ys| - 1] == b;
      FilterMonthConcat(xs, p, month);
      if InMonth(b, month) {
        assert FilterMonth(xs + ys, month) == FilterMonth(xs + p, month) + [b];
        assert FilterMonth(ys, month) == FilterMonth(p, month) + [b];
      } else {
        assert FilterMonth(xs + ys, month) == FilterMonth(xs + p, month);
        assert FilterMonth(ys, month) == FilterMonth(p, month);
      }
    }
  }

  /** The year filter keeps every booking of the year exactly as often as
      the list holds it, and no other booking. */
  lemma {:induction false} FilterYearCounts(bs: seq<Booking>, year: int)
    ensures forall x :: multiset(FilterYear(bs, year))[x] == if InYear(x, year) then multiset(bs)[x] else 0
  {
    if bs != [] {
      var p := bs[..|bs| - 1];
      var b := bs[|bs| - 1];
      FilterYearCounts(p, year);
      assert bs == p + [b];
      assert multiset(bs) == multiset(p) + multiset{b};
      if InYear(b, year) {
        assert multiset(FilterYear(bs, year)) == multiset(FilterYear(p, year)) + multiset{b};
      } else {
        assert FilterYear(bs, year) == FilterYear(p, year);
      }
    }
  }

  /** The month filter keeps every booking of the month exactly as often as
      the list holds it, and no other booking. */
  lemma {:induction false} FilterMonthCounts(bs: seq<Booking>, month: int)
    ensures forall x :: multiset(FilterMonth(bs, month))[x] == if InMonth(x, month) then multiset(bs)[x] else 0
  {
    if bs != [] {
      var p := bs[..|bs| - 1];
      var b := bs[|bs| - 1];
      FilterMonthCounts(p, month);
      assert bs == p + [b];
      assert multiset(bs) == multiset(p) + multiset{b};
      if InMonth(b, month) {
        assert multiset(FilterMonth(bs, month)) == multiset(FilterMonth(p, month)) + multiset{b};
      } else {
        assert FilterMonth(bs, month) == FilterMonth(p, month);
      }
    }
  }

  /** The bookings kept for `year` all have rooms when the bookings of that
      year do. */
  lemma YearRooms(bs: seq<Booking>, year: int)
    requires YearHasRooms(bs, year)
    ensures AllHaveRooms(FilterYear(bs, year))
  {
    forall b <- FilterYear(bs, year) ensures HasRoom(b) { assert b in bs; }
  }

  /** The year filter keeps nothing of a list without a stay in that year. */
  lemma FilterYearNone(bs: seq<Booking>, year: int)
    requires forall b <- bs :: !InYear(b, year)
    ensures FilterYear(bs, year) == []
  {
  }

  /** A filter keeps a list whose every booking matches it unchanged. */
  lemma {:induction false} FilterYearKeepsMatching(bs: seq<Booking>, year: int)
    requires forall b <- bs :: InYear(b, year)
    ensures FilterYear(bs, year) == bs
  {
    if bs != [] {
      var p := bs[..|bs| - 1];
      var last := bs[|bs| - 1];
      assert forall k :: 0 <= k < |p| ==> p[k] == bs[k];
      FilterYearKeepsMatching(p, year);
      assert InYear(last, year);
      assert FilterYear(bs, year) == FilterYear(p, year) + [last];
      assert bs == p + [last];
    }
  }

  /** The month filter keeps nothing of a list without a stay in that
      month. */
  lemma FilterMonthNone(bs: seq<Booking>, month: int)
    requires forall b <- bs :: !InMonth(b, month)
    ensures FilterMonth(bs, month) == []
  {
  }

  /** The year and month filters commute: chaining them in either order
      gives the same list. */
  lemma {:induction false} FiltersCommute(bs: seq<Booking>, year: int, month: int)
    ensures FilterMonth(FilterYear(bs, year), month) == FilterYear(FilterMonth(bs, month), year)
  {
    if bs != [] {
      var p := bs[..|bs| - 1];
      var b := bs[|bs| - 1];
      FiltersCommute(p, year, month);
      if InYear(b, year) {
        assert (FilterYear(p, year) + [b])[..|FilterYear(p, year)|] == FilterYear(p, year);
      }
      if InMonth(b, month) {
        assert (FilterMonth(p, month) + [b])[..|FilterMonth(p, month)|] == FilterMonth(p, month);
      }
    }
  }
}
