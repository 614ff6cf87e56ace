/** The manager's yearly statistics page: nights sold and revenue earned per
    check-in month, and the year's total revenue. */
module Statistics {
  import opened Bookings

  /** One month's running totals. */
  datatype Bucket = Bucket(nights: int, revenue: int)

  /** One line of the report: a month (1..12) with its totals. */
  datatype MonthStat = MonthStat(month: Month, nights: int, revenue: int)

  /** Twelve zero-filled buckets, month 1 at index 0. */
  const NoStays: seq<Bucket> := [Bucket(0, 0), Bucket(0, 0), Bucket(0, 0), Bucket(0, 0),
                                 Bucket(0, 0), Bucket(0, 0), Bucket(0, 0), Bucket(0, 0),
                                 Bucket(0, 0), Bucket(0, 0), Bucket(0, 0), Bucket(0, 0)]

  /** Total nights of a list of stays. */
  function SumNights(bs: seq<Booking>): int
  {
    if bs == [] then 0 else SumNights(bs[..|bs| - 1]) + Nights(bs[|bs| - 1])
  }

  /** Total revenue of a list of stays. */
  function SumRevenue(bs: seq<Booking>): int
    requires AllHaveRooms(bs)
  {
    if bs == [] then 0 else SumRevenue(bs[..|bs| - 1]) + Revenue(bs[|bs| - 1])
  }

  /** Total revenue held in a list of buckets. */
  function BucketRevenue(buckets: seq<Bucket>): int
  {
    if buckets == [] then 0 else BucketRevenue(buckets[..|buckets| - 1]) + buckets[|buckets| - 1].revenue
  }

  /** Adds one stay, whole, to the bucket of its check-in month. */
  function Record(buckets: seq<Bucket>, b: Booking): seq<Bucket>
    requires |buckets| == 12 && HasRoom(b)
  {
    var i := b.checkIn.month - 1;
    buckets[i := Bucket(buckets[i].nights + Nights(b), buckets[i].revenue + Revenue(b))]
  }

  /** The buckets after recording every stay of `bs` in order, starting
      from twelve empty buckets: there are always exactly twelve. */
  function Tally(bs: seq<Booking>): (r: seq<Bucket>)
    requires AllHaveRooms(bs)
    ensures |r| == 12
  {
    if bs == [] then NoStays
    else
      assert forall b <- bs[..|bs| - 1] :: b in bs;
      Record(Tally(bs[..|bs| - 1]), bs[|bs| - 1])
  }

  /** The buckets of the report for `year`: only stays checking in that
      year are recorded. */
  function YearTally(bs: seq<Booking>, year: int): (r: seq<Bucket>)
    requires YearHasRooms(bs, year)
  {
    assert AllHaveRooms(FilterYear(bs, year));
    Tally(FilterYear(bs, year))
  }

  /** The report lines for twelve buckets, months 1..12 in order. */
  function Report(buckets: seq<Bucket>): (r: seq<MonthStat>)
    requires |buckets| == 12
  {
    seq(12, i requires 0 <= i < 12 => MonthStat(i + 1, buckets[i].nights, buckets[i].revenue))
  }

  /** A stay added to the bookings changes the report for `year` only when
      it checks in that year, and then only in the bucket of its check-in
      month, by exactly its nights and its revenue. */
  lemma YearTallyAppend(bs: seq<Booking>, b: Booking, year: int)
    requires YearHasRooms(bs, year) && (InYear(b, year) ==> HasRoom(b))
    ensures YearHasRooms(bs + [b], year)
    ensures forall i :: 0 <= i < 12 ==>
      YearTally(bs + [b], year)[i] ==
        if InYear(b, year) && i == b.checkIn.month - 1
        then Bucket(YearTally(bs, year)[i].nights + Nights(b), YearTally(bs, year)[i].revenue + Revenue(b))
        else YearTally(bs, year)[i]
  {
    assert (bs + [b])[..|bs|] == bs;
    var f := FilterYear(bs, year);
    if InYear(b, year) {
      assert FilterYear(bs + [b], year) == f + [b];
      assert (f + [b])[..|f|] == f;
    } else {
      assert FilterYear(bs + [b], year) == f;
    }
  }

  /** Appending a stay adds its nights and its revenue to the sums. */
  lemma SumsAppend(bs: seq<Booking>, b: Booking)
    requires AllHaveRooms(bs) && HasRoom(b)
    ensures AllHaveRooms(bs + [b])
    ensures SumNights(bs + [b]) == SumNights(bs) + Nights(b)
    ensures SumRevenue(bs + [b]) == SumRevenue(bs) + Revenue(b)
  {
    assert (bs + [b])[..|bs|] == bs;
  }

  /** Recording a stay touches only the bucket of its check-in month. */
  lemma RecordAt(buckets: seq<Bucket>, b: Booking, m: Month)
    requires |buckets| == 12 && HasRoom(b)
    ensures Record(buckets, b)[m - 1] ==
      if InMonth(b, m) then Bucket(buckets[m - 1].nights + Nights(b), buckets[m - 1].revenue + Revenue(b))
      else buckets[m - 1]
  {
  }

  /** Every stay of a filtered list has a room when every stay of the list
      has one. */
  lemma FilterMonthHasRooms(bs: seq<Booking>, m: Month)
    requires AllHaveRooms(bs)
    ensures AllHaveRooms(FilterMonth(bs, m))
  {
    forall b <- FilterMonth(bs, m) ensures HasRoom(b) { assert b in bs; }
  }

  /** Each bucket holds exactly the nights and the revenue of the stays
      that check in in its month. */
  lemma {:induction false} TallyIsMonthlySum(bs: seq<Booking>, m: Month)
    requires AllHaveRooms(bs)
    ensures AllHaveRooms(FilterMonth(bs, m))
    ensures Tally(bs)[m - 1] == Bucket(SumNights(FilterMonth(bs, m)), SumRevenue(FilterMonth(bs, m)))
  {
    FilterMonthHasRooms(bs, m);
    if bs != [] {
      var p := bs[..|bs| - 1];
      var b := bs[|bs| - 1];
      assert AllHaveRooms(p) by {
        forall c <- p ensures HasRoom(c) { assert c in bs; }
      }
      TallyIsMonthlySum(p, m);
      var fp := FilterMonth(p, m);
      assert Tally(bs) == Record(Tally(p), b);
      RecordAt(Tally(p), b, m);
      if InMonth(b, m) {
        assert FilterMonth(bs, m) == fp + [b];
        SumsAppend(fp, b);
      } else {
        assert FilterMonth(bs, m) == fp;
      }
    }
  }

  /** A month in which no stay of the year checks in reports zero nights
      and zero revenue. */
  lemma EmptyMonthIsZero(bookings: seq<Booking>, year: int, m: Month)
    requires YearHasRooms(bookings, year)
    requires forall b <- bookings :: !(InYear(b, year) && InMonth(b, m))
    ensures YearTally(bookings, year)[m - 1] == Bucket(0, 0)
  {
    var q := FilterYear(bookings, year);
    YearRooms(bookings, year);
    forall b <- q ensures !InMonth(b, m) { assert b in bookings; }
    FilterMonthNone(q, m);
    TallyIsMonthlySum(q, m);
  }

  /** Adding a value to one bucket's revenue adds it to the total. */
  lemma {:induction false} BucketRevenueUpdate(buckets: seq<Bucket>, i: nat, nights: int, delta: int)
    requires i < |buckets|
    ensures BucketRevenue(buckets[i := Bucket(nights, buckets[i].revenue + delta)]) == BucketRevenue(buckets) + delta
  {
    var n := |buckets|;
    var u := buckets[i := Bucket(nights, buckets[i].revenue + delta)];
    if i == n - 1 {
      assert u[..n - 1] == buckets[..n - 1];
    } else {
      BucketRevenueUpdate(buckets[..n - 1], i, nights, delta);
      assert u[..n - 1] == buckets[..n - 1][i := Bucket(nights, buckets[i].revenue + delta)];
    }
  }

  /** Buckets that hold no revenue add up to zero. */
  lemma {:induction false} NoRevenue(buckets: seq<Bucket>)
    requires forall k :: 0 <= k < |buckets| ==> buckets[k].revenue == 0
    ensures BucketRevenue(buckets) == 0
  {
    if buckets != [] {
      NoRevenue(buckets[..|buckets| - 1]);
    }
  }

  /** The twelve monthly revenues add up to the revenue of all the stays
      recorded. */
  lemma {:induction false} TallyTotal(bs: seq<Booking>)
    requires AllHaveRooms(bs)
    ensures BucketRevenue(Tally(bs)) == SumRevenue(bs)
  {
    if bs == [] {
      NoRevenue(NoStays);
    } else {
      var p := bs[..|bs| - 1];
      var b := bs[|bs| - 1];
      assert forall c <- p :: c in bs;
      TallyTotal(p);
      var t := Tally(p);
      var i := b.checkIn.month - 1;
      BucketRevenueUpdate(t, i, t[i].nights + Nights(b), Revenue(b));
    }
  }

  /** Bookings checking in in some other year change nothing in the report
      for `year`, wherever they stand in the list, and whether they have a
      room or not. */
  lemma OtherYearsIgnored(xs: seq<Booking>, others: seq<Booking>, ys: seq<Booking>, year: int)
    requires YearHasRooms(xs + ys, year)
    requires forall b <- others :: !InYear(b, year)
    ensures YearHasRooms(xs + others + ys, year)
    ensures YearTally(xs + others + ys, year) == YearTally(xs + ys, year)
  {
    forall b <- xs + others + ys | InYear(b, year) ensures HasRoom(b) {
      assert b in xs + ys;
    }
    FilterYearConcat(xs + others, ys, year);
    FilterYearConcat(xs, others, year);
    FilterYearConcat(xs, ys, year);
    FilterYearNone(others, year);
    assert FilterYear(xs + others + ys, year) == FilterYear(xs + ys, year);
  }

  /** What the report for `year` says: twelve lines for months 1..12 in
      order, each with the nights and the revenue of exactly the stays that
      check in in that month of that year, and a total equal to the revenue
      of all the stays that check in that year. */
  lemma YearReport(bookings: seq<Booking>, year: int)
    requires YearHasRooms(bookings, year)
    ensures AllHaveRooms(FilterYear(bookings, year))
    ensures |Report(YearTally(bookings, year))| == 12
    ensures forall m: Month ::
      var line := Report(YearTally(bookings, year))[m - 1];
      var stays := FilterMonth(FilterYear(bookings, year), m);
      && line.month == m
      && AllHaveRooms(stays)
      && line.nights == SumNights(stays)
      && line.revenue == SumRevenue(stays)
    ensures BucketRevenue(YearTally(bookings, year)) == SumRevenue(FilterYear(bookings, year))
  {
    var q := FilterYear(bookings, year);
    YearRooms(bookings, year);
    var t := Tally(q);
    assert YearTally(bookings, year) == t;
    var r := Report(t);
    forall m: Month
      ensures r[m - 1].month == m
      ensures AllHaveRooms(FilterMonth(q, m))
      ensures r[m - 1].nights == SumNights(FilterMonth(q, m))
      ensures r[m - 1].revenue == SumRevenue(FilterMonth(q, m))
    {
      TallyIsMonthlySum(q, m);
      assert r[m - 1] == MonthStat(m, t[m - 1].nights, t[m - 1].revenue);
    }
    TallyTotal(q);
  }

  /** The statistics page for `year` (the current year when the page is
      served): the twelve report lines and the total revenue. */
  method StatisticsView(bookings: seq<Booking>, year: int) returns (statsList: seq<MonthStat>, totalRevenue: int)
    requires YearHasRooms(bookings, year)
    ensures statsList == Report(YearTally(bookings, year))
    ensures totalRevenue == BucketRevenue(YearTally(bookings, year))
  {
    var qualifying := FilterYear(bookings, year);
    YearRooms(bookings, year);
    var stats := new Bucket[12](_ => Bucket(0, 0));
    for i := 0 to |qualifying|
      invariant stats[..] == Tally(qualifying[..i])
    {
      var b := qualifying[i];
      assert b in qualifying;
      assert qualifying[..i + 1] == qualifying[..i] + [b];
      assert AllHaveRooms(qualifying[..i]);
      assert Tally(qualifying[..i + 1]) == Record(Tally(qualifying[..i]), b);
      var month := b.checkIn.month;
      var nights := b.checkOut.ordinal - b.checkIn.ordinal;
      stats[month - 1] := Bucket(stats[month - 1].nights + nights, stats[month - 1].revenue + nights * b.room.value.price);
    }
    assert qualifying[..|qualifying|] == qualifying;
    ghost var tally := stats[..];

    statsList := [];
    for m := 1 to 13
      invariant stats[..] == tally
      invariant statsList == Report(tally)[..m - 1]
    {
      assert Report(tally)[..m] == Report(tally)[..m - 1] + [Report(tally)[m - 1]];
      statsList := statsList + [MonthStat(m, stats[m - 1].nights, stats[m - 1].revenue)];
    }

    assert Report(tally)[..12] == Report(tally);
    totalRevenue := 0;
    for k := 0 to 12
      invariant totalRevenue == BucketRevenue(tally[..k])
      invariant statsList == Report(tally)
    {
      assert tally[..k + 1][..k] == tally[..k];
      totalRevenue := totalRevenue + statsList[k].revenue;
    }
    assert tally[..12] == tally;
  }
}
