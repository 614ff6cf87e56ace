# Hotel back office and booking form: statistics, dashboard filter, guest picker

This project models in Dafny the two pieces of logic of the hotel
application that are not handed to the database, the template engine or the
browser:

- the manager's **statistics page** (`statistics_view`). It fills twelve
  month buckets with the nights and the revenue of the bookings that check in
  in the current year. A stay counts wholly in its check-in month. It then
  lists the buckets for months 1..12 and sums the revenue. The manager
  **dashboard's** month list and its optional year and month filters on the
  bookings (`manager_dashboard`) work on the same records.
- the booking form's **guest picker** (`booking.js`). A popup has "+" and
  "-" buttons for guests (never fewer than one) and children (never
  negative). An "apply" button copies the pending counts into the booking
  field and into the hidden form inputs, then closes the popup.

Modules:

- `Bookings` (bookings.dfy): booking records with abstract dates. A date is
  a year, a month in 1..12 and a day ordinal, and nights are the difference
  of two ordinals. Prices are integers in cents. This module also holds the
  `check_in__year` and `check_in__month` lookups as filters on an in-memory
  list of bookings. Lemmas prove that the filters keep the list's order and
  keep each matching booking as often as it occurs.
- `Dashboard` (dashboard.dfy): the month list and the dashboard's filter.
- `Statistics` (statistics.dfy): `StatisticsView` is a method. Its first
  loop updates an `array` of twelve buckets, its second loop builds the
  report list by appending and its third loop sums the revenue. It is proved
  equal to the recursive specification: `Tally`/`YearTally` for the buckets
  and `Report` for the list of month lines built from them. Lemmas state
  what those buckets hold.
- `Guests` (guests.dfy): the class `GuestPicker`. Its fields are the pending
  counts, the popup and field texts, the hidden inputs and the popup flag.
  Its methods are the click handlers.

The code does not check that check-out is after check-in. So nights (and
revenue) may be zero or negative, and no lemma assumes otherwise.

## Model

| member | source | states |
|---|---|---|
| Bookings.FilterYear | manager/views.py:82 | a booking is kept iff it is in the list and checks in in the given year; the result is never longer than the list |
| Bookings.FilterMonth | manager/views.py:39 | a booking is kept iff it is in the list and checks in in the given month; the result is never longer than the list |
| Bookings.FilterYearConcat | manager/views.py:82 | the year filter keeps order: filtering xs + ys gives filter(xs) + filter(ys) |
| Bookings.FilterMonthConcat | manager/views.py:39 | the month filter keeps order: filtering xs + ys gives filter(xs) + filter(ys) |
| Bookings.FilterYearCounts | manager/views.py:82 | each booking of the year is kept exactly as often as the list holds it; other bookings are not kept |
| Bookings.FilterMonthCounts | manager/views.py:39 | each booking of the month is kept exactly as often as the list holds it; other bookings are not kept |
| Bookings.FilterYearKeepsMatching | manager/views.py:37 | a list whose bookings all check in in the year comes out of the year filter unchanged |
| Bookings.FiltersCommute | manager/views.py:36-39 | filtering by year and then by month gives the same list as by month and then by year |
| Dashboard.MonthsFrom | manager/views.py:32 | the list for `range(first, 13)` has 13 - first entries, entry k being (first + k, its month name) |
| Dashboard.MonthChoices | manager/views.py:32 | the month list has exactly twelve entries, (i, name of month i) for i = 1..12, in strictly ascending order |
| Dashboard.DashboardBookings | manager/views.py:34-39 | a booking is listed iff it is in the list and matches the selected year and the selected month, if any; with nothing selected the list is unchanged |
| Dashboard.DashboardCounts | manager/views.py:36-39 | each selected booking is listed exactly as often as the bookings hold it; unselected bookings are not listed |
| Dashboard.DashboardConcat | manager/views.py:36-39 | the listing keeps order: the list for xs + ys is the list for xs followed by the list for ys |
| Statistics.Tally | manager/views.py:81-88 | recording any list of stays always yields exactly twelve buckets |
| Statistics.YearTallyAppend | manager/views.py:82-88 | one more booking changes the year's buckets only if it checks in that year, and then only its check-in month's bucket, by exactly its nights and nights × price; a booking of another year needs no room |
| Statistics.TallyIsMonthlySum | manager/views.py:84-88 | the bucket of month m holds exactly the total nights and the total revenue of the stays checking in in month m |
| Statistics.EmptyMonthIsZero | manager/views.py:81 | a month in which no booking of the year checks in reports 0 nights and 0 revenue |
| Statistics.TallyTotal | manager/views.py:98 | the revenues of the twelve buckets add up to the revenue of all the recorded stays |
| Statistics.OtherYearsIgnored | manager/views.py:82 | bookings checking in in another year, with or without a room and anywhere in the list, leave the year's buckets unchanged |
| Statistics.YearReport | manager/views.py:81-98 | the report has twelve lines for months 1..12 in order; line m holds the nights and revenue of exactly the stays checking in in month m of the year; the bucket total equals the revenue of all the year's stays |
| Statistics.StatisticsView | manager/views.py:77-98 | the list built by the loops equals the report of the year's buckets, and the total equals the sum of their revenues |
| Guests.GuestPicker.constructor | static/js/booking.js:19-21 | the picker starts with the given counts (at least one guest, no negative children) everywhere and the popup closed |
| Guests.GuestPicker.Open | static/js/booking.js:24-26 | a click on the field opens the popup and changes nothing else |
| Guests.GuestPicker.UpdateDisplay | static/js/booking.js:29-32 | the popup shows the pending counts |
| Guests.GuestPicker.Increment | static/js/booking.js:35-45 | "guest" adds one guest, "children" one child, any other target nothing; the hidden inputs keep their values; the count invariants hold |
| Guests.GuestPicker.Decrement | static/js/booking.js:47-57 | "guest" removes one guest only above one, "children" one child only above zero, any other target nothing; the hidden inputs keep their values; the count invariants hold |
| Guests.GuestPicker.Apply | static/js/booking.js:60-69 | the field and the hidden inputs take the pending counts, the counts stay, the popup closes |

## Left out

- The database: bookings are an in-memory sequence. `select_related`,
  `prefetch_related`, `order_by('-created_at')`, the `ExtractYear` list of
  years and `distinct` are not modelled.
- The current date: `date.today().year` is the `year` parameter of
  `StatisticsView`.
- Query parameters: a selected year or month is an `Option<int>`. `None`
  stands for a missing or empty parameter. A non-numeric parameter (an error
  in the database layer) is not modelled.
- The relation between a date's year, month and day ordinal is not
  modelled. They are independent fields of the abstract date.
- Bookings without a room that check in in the report year: `room.price`
  would fail on them, and the statistics require those bookings to have a
  room. Bookings of other years may lack a room.
- Month names in the report lines: a line carries its month number.
  `MonthNames` fixes the English names of `calendar.month_name` for the
  dashboard list. Other locales are not modelled.
- Decimal prices: prices are whole numbers of cents.
- Review averages and counts (floating-point database aggregates),
  `manager_edit_room` (a float parse of form data), the class-based CRUD
  views, URL tables, forms, admin, models, signals and the guest-facing
  views: framework configuration or persistence with no logic of their own.
- In the guest picker: element lookups, `parseInt` of the popup text (the
  constructor takes the parsed counts), closing the popup on a click outside
  it (a browser `closest` test), and positioning the popup on the page. The
  initial values of the field text and the hidden inputs come from the
  rendered form. The model takes them equal to the popup's counts, which is
  what the form's defaults (one guest, no children) give.
- Guests.GuestPicker.Increment: counts are unbounded integers. JavaScript
  numbers lose precision beyond 2^53 increments, which is not modelled.
