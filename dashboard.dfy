/**
 * The user dashboard: the signed-in user's bookings, each shown as a card
 * with a short id, the price, the services with their quantities, and a
 * status badge that reads "Previous" for a booking whose slot has started
 * and "Confirmed" otherwise. "Now" is an input.
 */
module Dashboard {
  import opened Wrappers
  import opened Accounts

  /** `new Date(start_time)`: a point in time in milliseconds, or an invalid date. */
  datatype Instant = At(ms: int) | InvalidDate

  datatype BookingService = BookingService(serviceName: Option<string>, quantity: Option<int>)

  /**
   * A row of the bookings query. `startTime` is `None` when the joined time slot
   * is missing or its start time is null or empty.
   */
  datatype Booking = Booking(
    bookingId: string,
    totalPrice: Option<int>,
    startTime: Option<Instant>,
    services: seq<BookingService>)

  /**
   * `isPastBooking`: without a start time a booking is never past; otherwise it is
   * past when its start is strictly before now. An invalid date compares false.
   */
  function IsPastBooking(b: Booking, now: int): (past: bool)
    ensures b.startTime.None? ==> !past
    ensures b.startTime == Some(InvalidDate) ==> !past
    ensures forall t :: b.startTime == Some(At(t)) ==> (past <==> t < now)
  {
    match b.startTime
    case None => false
    case Some(InvalidDate) => false
    case Some(At(t)) => t < now
  }

  /** Once a booking is past, it stays past as time goes on. */
  lemma PastStaysPast(b: Booking, now: int, later: int)
    requires IsPastBooking(b, now) && now <= later
    ensures IsPastBooking(b, later)
  {
  }

  /** The status badge: its text and its colour classes. */
  datatype Badge = Badge(text: string, style: string)

  const PreviousStyle := "bg-gray-500/20 text-gray-400"
  const ConfirmedStyle := "bg-green-500/20 text-green-400"

  function Status(b: Booking, now: int): (badge: Badge)
    ensures badge.text == "Previous" <==> IsPastBooking(b, now)
    ensures badge.text == "Confirmed" <==> !IsPastBooking(b, now)
    ensures badge.style == PreviousStyle <==> badge.text == "Previous"
  {
    if IsPastBooking(b, now) then Badge("Previous", PreviousStyle) else Badge("Confirmed", ConfirmedStyle)
  }

  /** `booking_id.slice(0, 8)`: the first eight characters, or the whole id if shorter. */
  function ShortId(id: string): (r: string)
    ensures |r| == if |id| < 8 then |id| else 8
    ensures r <= id
    ensures |id| <= 8 ==> r == id
  {
    if |id| <= 8 then id else id[..8]
  }

  /**
   * What one booking card shows, apart from dates, salon and barber. The price
   * and each quantity are shown with `value || 0`: a missing value is shown
   * as 0, and a stored 0 is 0 anyway.
   */
  datatype Card = Card(title: string, price: int, quantities: seq<int>, badge: Badge)

  function CardOf(b: Booking, now: int): (c: Card)
    ensures c.title == "Booking #" + ShortId(b.bookingId)
    ensures c.price == b.totalPrice.GetOr(0)
    ensures |c.quantities| == |b.services|
    ensures forall i :: 0 <= i < |b.services| ==> c.quantities[i] == b.services[i].quantity.GetOr(0)
    ensures c.badge.text == "Previous" <==> IsPastBooking(b, now)
  {
    Card("Booking #" + ShortId(b.bookingId), b.totalPrice.GetOr(0),
         seq(|b.services|, i requires 0 <= i < |b.services| => b.services[i].quantity.GetOr(0)),
         Status(b, now))
  }

  /** How the one-shot fetch on mounting ended. */
  datatype FetchOutcome =
    | UserLookupFailed                                   // the auth call returned an error, or threw
    | NoUser                                             // "User not found"
    | BookingsFailed(user: User)                         // the bookings query returned an error
    | BookingsFetched(user: User, rows: Option<seq<Booking>>)

  datatype DashboardState = DashboardState(user: Option<User>, bookings: seq<Booking>, loading: bool)

  /** The state on mounting: no user, no bookings, loading. */
  const Initial := DashboardState(None, [], true)

  /**
   * The end of the fetch: the user is recorded once found, the bookings are set
   * only when the query succeeded (`bookingsData || []`), and `loading` is false
   * whatever happened.
   */
  function AfterFetch(s: DashboardState, o: FetchOutcome): (t: DashboardState)
    ensures !t.loading
    ensures o.BookingsFetched? ==> t.bookings == o.rows.GetOr([])
    ensures o.BookingsFetched? && o.rows.None? ==> t.bookings == []
    ensures !o.BookingsFetched? ==> t.bookings == s.bookings
    ensures (o.BookingsFetched? || o.BookingsFailed?) ==> t.user == Some(o.user)
    ensures (o.UserLookupFailed? || o.NoUser?) ==> t.user == s.user
  {
    match o
    case UserLookupFailed => s.(loading := false)
    case NoUser => s.(loading := false)
    case BookingsFailed(u) => s.(user := Some(u), loading := false)
    case BookingsFetched(u, rows) => DashboardState(Some(u), rows.GetOr([]), false)
  }

  /** What the page body shows. */
  datatype View = Spinner | Cards(cards: seq<Card>) | NoBookingsFound

  function ViewOf(s: DashboardState, now: int): (v: View)
    ensures v.Spinner? <==> s.loading
    ensures v.NoBookingsFound? <==> !s.loading && s.bookings == []
    ensures v.Cards? ==> |v.cards| == |s.bookings|
    ensures v.Cards? ==> forall i :: 0 <= i < |s.bookings| ==> v.cards[i] == CardOf(s.bookings[i], now)
  {
    if s.loading then Spinner
    else if |s.bookings| > 0 then Cards(seq(|s.bookings|, i requires 0 <= i < |s.bookings| => CardOf(s.bookings[i], now)))
    else NoBookingsFound
  }

  /** After the fetch the spinner is gone, whatever the outcome. */
  lemma FetchEndsLoading(o: FetchOutcome, now: int)
    ensures !ViewOf(AfterFetch(Initial, o), now).Spinner?
    ensures !o.BookingsFetched? ==> ViewOf(AfterFetch(Initial, o), now) == NoBookingsFound
  {
  }
}
