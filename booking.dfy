/**
 * The booking page's client-side bookkeeping.  For the selected barber it
 * fetches the future time slots (ordered by start time on the server),
 * removes every slot whose id occurs in the bookings table, groups what is
 * left by calendar date, and after a confirmed booking drops the booked
 * slot from its date's list.
 *
 * Timestamps are integers.  The locale date formatter that turns a start
 * time into a date key is the uninterpreted function `dateKey`, fixed per
 * page.  Server queries, the insert and the login lookup are inputs.
 */
module Booking {
  import opened Wrappers
  import opened Accounts

  type SlotId = string

  datatype Slot = Slot(id: SlotId, startTime: int, endTime: int)

  /** A row of the bookings table, of which only the booked slot's id is read. */
  datatype BookingRow = BookingRow(timeSlotId: SlotId)

  datatype Barber = Barber(id: string, name: string)

  /** What a query returns: rows, or an error object. */
  datatype QueryResult<T> = Rows(data: T) | QueryError

  /** The alert a booking attempt ends with. */
  datatype BookingOutcome =
    | LoginRequired       // "Please login to book."
    | BookingFailed       // "Booking failed: Slot might already be booked."
    | Confirmed           // "Booking confirmed!" and the slot leaves its list
    | ConfirmedUnlisted   // "Booking confirmed!", but no list holds the slot: the state updater throws

  // ---------------------------------------------------------------------
  // Sequences of slots

  /** `a` can be obtained from `b` by deleting elements: same relative order. */
  ghost predicate Subsequence(a: seq<Slot>, b: seq<Slot>)
    decreases |b|
  {
    if a == [] then true
    else if b == [] then false
    else (a[0] == b[0] && Subsequence(a[1..], b[1..])) || Subsequence(a, b[1..])
  }

  /** Start times never decrease along the list. */
  ghost predicate AscendingStart(xs: seq<Slot>)
  {
    forall i, j :: 0 <= i < j < |xs| ==> xs[i].startTime <= xs[j].startTime
  }

  /** JavaScript's `filter`: the slots satisfying `p`, in their order. */
  function Keep(xs: seq<Slot>, p: Slot -> bool): (r: seq<Slot>)
    ensures |r| <= |xs|
    ensures forall s :: s in r <==> s in xs && p(s)
  {
    if xs == [] then []
    else if p(xs[0]) then [xs[0]] + Keep(xs[1..], p)
    else Keep(xs[1..], p)
  }

  /** The filter keeps every occurrence of a kept slot and drops the rest. */
  lemma {:induction false} KeepCount(xs: seq<Slot>, p: Slot -> bool, s: Slot)
    ensures multiset(Keep(xs, p))[s] == if p(s) then multiset(xs)[s] else 0
  {
    if xs != [] {
      KeepCount(xs[1..], p, s);
      assert xs == [xs[0]] + xs[1..];
    }
  }

  /** The filter keeps the relative order of what it keeps. */
  lemma {:induction false} KeepSubsequence(xs: seq<Slot>, p: Slot -> bool)
    ensures Subsequence(Keep(xs, p), xs)
  {
    if xs != [] {
      KeepSubsequence(xs[1..], p);
      if p(xs[0]) {
        assert ([xs[0]] + Keep(xs[1..], p))[1..] == Keep(xs[1..], p);
      }
    }
  }

  /** A filter whose predicate holds everywhere returns its input. */
  lemma {:induction false} KeepAll(xs: seq<Slot>, p: Slot -> bool)
    requires forall s :: s in xs ==> p(s)
    ensures Keep(xs, p) == xs
  {
    if xs != [] {
      KeepAll(xs[1..], p);
      assert xs == [xs[0]] + xs[1..];
    }
  }

  /** A filter whose predicate holds nowhere returns the empty list. */
  lemma {:induction false} KeepNone(xs: seq<Slot>, p: Slot -> bool)
    requires forall s :: s in xs ==> !p(s)
    ensures Keep(xs, p) == []
  {
    if xs != [] {
      KeepNone(xs[1..], p);
    }
  }

  /** Filtering a list extended at the end extends the filtered list at the end. */
  lemma {:induction false} KeepSnoc(xs: seq<Slot>, x: Slot, p: Slot -> bool)
    ensures Keep(xs + [x], p) == Keep(xs, p) + (if p(x) then [x] else [])
  {
    if xs == [] {
      assert [x][1..] == [];
    } else {
      assert (xs + [x])[0] == xs[0];
      assert (xs + [x])[1..] == xs[1..] + [x];
      KeepSnoc(xs[1..], x, p);
    }
  }

  /** A filter that drops some slot returns a shorter list. */
  lemma {:induction false} KeepShrinks(xs: seq<Slot>, p: Slot -> bool)
    ensures (exists s :: s in xs && !p(s)) ==> |Keep(xs, p)| < |xs|
  {
    if xs != [] && p(xs[0]) {
      KeepShrinks(xs[1..], p);
      forall s | s in xs && !p(s) ensures s in xs[1..] {
        assert s != xs[0];
      }
    }
  }

  /** The tail of an ascending list is ascending and starts no earlier than its head. */
  lemma AscendingTail(xs: seq<Slot>)
    requires AscendingStart(xs) && xs != []
    ensures AscendingStart(xs[1..])
    ensures forall s :: s in xs[1..] ==> xs[0].startTime <= s.startTime
  {
  }

  /** A slot no later than every slot of an ascending list can be put in front of it. */
  lemma AscendingCons(x: Slot, r: seq<Slot>)
    requires AscendingStart(r)
    requires forall s :: s in r ==> x.startTime <= s.startTime
    ensures AscendingStart([x] + r)
  {
  }

  /** A filter of an ascending list is ascending. */
  lemma {:induction false} KeepAscending(xs: seq<Slot>, p: Slot -> bool)
    requires AscendingStart(xs)
    ensures AscendingStart(Keep(xs, p))
  {
    if xs != [] {
      AscendingTail(xs);
      KeepAscending(xs[1..], p);
      if p(xs[0]) {
        AscendingCons(xs[0], Keep(xs[1..], p));
      }
    }
  }

  // ---------------------------------------------------------------------
  // Availability (`timeSlots.filter(slot => !bookedSlotIds.includes(slot.id))`)

  /** `bookings?.map(b => b.time_slot_id) || []`: no data means nothing is booked. */
  function BookedSlotIds(bookings: Option<seq<BookingRow>>): (ids: seq<SlotId>)
    ensures bookings.None? ==> ids == []
    ensures bookings.Some? ==> |ids| == |bookings.value|
    ensures bookings.Some? ==> forall i :: 0 <= i < |ids| ==> ids[i] == bookings.value[i].timeSlotId
  {
    match bookings
    case None => []
    case Some(rows) => seq(|rows|, i requires 0 <= i < |rows| => rows[i].timeSlotId)
  }

  /** The fetched slots whose id is not booked, in their original order. */
  function Available(slots: seq<Slot>, booked: seq<SlotId>): (r: seq<Slot>)
    ensures forall s :: s in r <==> s in slots && s.id !in booked
    ensures forall s :: multiset(r)[s] == if s.id in booked then 0 else multiset(slots)[s]
    ensures Subsequence(r, slots)
  {
    var p := (s: Slot) => s.id !in booked;
    KeepSubsequence(slots, p);
    forall s ensures multiset(Keep(slots, p))[s] == if s.id in booked then 0 else multiset(slots)[s] {
      KeepCount(slots, p, s);
    }
    Keep(slots, p)
  }

  /** When the bookings query returns no data, every fetched slot is available. */
  lemma NoBookingsAllAvailable(slots: seq<Slot>)
    ensures Available(slots, BookedSlotIds(None)) == slots
  {
    KeepAll(slots, (s: Slot) => s.id !in BookedSlotIds(None));
  }

  // ---------------------------------------------------------------------
  // Grouping by date (the `reduce` into an object of arrays)

  /** The date keys the slots fall on. */
  function DateKeys(xs: seq<Slot>, dateKey: int -> string): set<string> {
    set s | s in xs :: dateKey(s.startTime)
  }

  /** The slots whose start falls on date `k`, in their order. */
  function SlotsOn(xs: seq<Slot>, dateKey: int -> string, k: string): (r: seq<Slot>)
    ensures forall s :: s in r <==> s in xs && dateKey(s.startTime) == k
  {
    Keep(xs, (s: Slot) => dateKey(s.startTime) == k)
  }

  /** The reference grouping: every date the slots fall on, mapped to that date's slots. */
  function Grouped(xs: seq<Slot>, dateKey: int -> string): map<string, seq<Slot>> {
    map k | k in DateKeys(xs, dateKey) :: SlotsOn(xs, dateKey, k)
  }

  /** One step of the `reduce`: create the date's list if missing, then push the slot. */
  function PushSlot(acc: map<string, seq<Slot>>, k: string, s: Slot): map<string, seq<Slot>> {
    var withList := if k in acc then acc else acc[k := []];
    withList[k := withList[k] + [s]]
  }

  /** The dates of a list extended by one slot are the old dates plus that slot's date. */
  lemma DateKeysSnoc(xs: seq<Slot>, x: Slot, dateKey: int -> string)
    ensures DateKeys(xs + [x], dateKey) == DateKeys(xs, dateKey) + {dateKey(x.startTime)}
  {
  }

  /** A date none of the slots falls on has no slots. */
  lemma SlotsOnAbsent(xs: seq<Slot>, dateKey: int -> string, k: string)
    requires k !in DateKeys(xs, dateKey)
    ensures SlotsOn(xs, dateKey, k) == []
  {
    KeepNone(xs, (s: Slot) => dateKey(s.startTime) == k);
  }

  /** Grouping a list extended by one slot is one `reduce` step after grouping the list. */
  lemma GroupedSnoc(xs: seq<Slot>, x: Slot, dateKey: int -> string)
    ensures Grouped(xs + [x], dateKey) == PushSlot(Grouped(xs, dateKey), dateKey(x.startTime), x)
  {
    var before, after := Grouped(xs, dateKey), Grouped(xs + [x], dateKey);
    var pushed := PushSlot(before, dateKey(x.startTime), x);
    DateKeysSnoc(xs, x, dateKey);
    assert after.Keys == pushed.Keys;
    forall k | k in after ensures after[k] == pushed[k] {
      KeepSnoc(xs, x, (s: Slot) => dateKey(s.startTime) == k);
      if k !in before {
        SlotsOnAbsent(xs, dateKey, k);
      }
    }
  }

  /** The `reduce` itself: a loop pushing each available slot onto its date's list. */
  method GroupByDate(available: seq<Slot>, dateKey: int -> string) returns (grouped: map<string, seq<Slot>>)
    ensures grouped == Grouped(available, dateKey)
  {
    grouped := map[];
    var i := 0;
    while i < |available|
      invariant 0 <= i <= |available|
      invariant grouped == Grouped(available[..i], dateKey)
    {
      var slot := available[i];
      var key := dateKey(slot.startTime);
      GroupedSnoc(available[..i], slot, dateKey);
      assert available[..i + 1] == available[..i] + [slot];
      if key !in grouped {
        grouped := grouped[key := []];
      }
      grouped := grouped[key := grouped[key] + [slot]];
      i := i + 1;
    }
    assert available[..i] == available;
  }

  /** Every list holds only slots that fall on its own date. */
  ghost predicate FiledByDate(m: map<string, seq<Slot>>, dateKey: int -> string)
  {
    forall k, s :: k in m && s in m[k] ==> dateKey(s.startTime) == k
  }

  /**
   * After grouping, a slot is in the list under date `k` exactly when it is
   * available and falls on `k`; so each available slot is in exactly one list,
   * and nothing else is in any list. There is a key for every date an available
   * slot falls on and no other.
   */
  lemma GroupedPlacesEachSlotOnce(xs: seq<Slot>, dateKey: int -> string)
    ensures forall k :: k in Grouped(xs, dateKey) <==> exists s :: s in xs && dateKey(s.startTime) == k
    ensures forall k, s :: k in Grouped(xs, dateKey) ==> (s in Grouped(xs, dateKey)[k] <==> s in xs && dateKey(s.startTime) == k)
    ensures forall s :: s in xs ==> dateKey(s.startTime) in Grouped(xs, dateKey) && s in Grouped(xs, dateKey)[dateKey(s.startTime)]
    ensures FiledByDate(Grouped(xs, dateKey), dateKey)
  {
  }

  /** Grouping never produces an empty list. */
  lemma GroupedListsNonEmpty(xs: seq<Slot>, dateKey: int -> string)
    ensures forall k :: k in Grouped(xs, dateKey) ==> Grouped(xs, dateKey)[k] != []
  {
  }

  /**
   * Within each date the slots keep their input order; since the server orders the
   * fetched slots by ascending start time, each date's list is ascending too.
   */
  lemma GroupedListsOrdered(xs: seq<Slot>, dateKey: int -> string)
    ensures forall k :: k in Grouped(xs, dateKey) ==> Subsequence(Grouped(xs, dateKey)[k], xs)
    ensures AscendingStart(xs) ==> forall k :: k in Grouped(xs, dateKey) ==> AscendingStart(Grouped(xs, dateKey)[k])
  {
    forall k | k in Grouped(xs, dateKey)
      ensures Subsequence(Grouped(xs, dateKey)[k], xs)
      ensures AscendingStart(xs) ==> AscendingStart(Grouped(xs, dateKey)[k])
    {
      KeepSubsequence(xs, (s: Slot) => dateKey(s.startTime) == k);
      if AscendingStart(xs) {
        KeepAscending(xs, (s: Slot) => dateKey(s.startTime) == k);
      }
    }
  }

  // ---------------------------------------------------------------------
  // Removing a booked slot (`newSlots[dateKey].filter(slot => slot.id !== slotId)`)

  /** `list.some(slot => slot.id === slotId)`. */
  predicate HasSlot(xs: seq<Slot>, id: SlotId) {
    exists s :: s in xs && s.id == id
  }

  /** The list without the slots carrying `id`, in their order. */
  function WithoutSlot(xs: seq<Slot>, id: SlotId): (r: seq<Slot>)
    ensures forall s :: s in r <==> s in xs && s.id != id
    ensures !HasSlot(r, id)
    ensures Subsequence(r, xs)
    ensures HasSlot(xs, id) ==> |r| < |xs|
    ensures forall s :: multiset(r)[s] == if s.id == id then 0 else multiset(xs)[s]
  {
    var p := (s: Slot) => s.id != id;
    KeepSubsequence(xs, p);
    KeepShrinks(xs, p);
    forall s ensures multiset(Keep(xs, p))[s] == if s.id == id then 0 else multiset(xs)[s] {
      KeepCount(xs, p, s);
    }
    Keep(xs, p)
  }

  /** Some date's list holds a slot with this id. */
  predicate Listed(m: map<string, seq<Slot>>, id: SlotId) {
    exists k :: k in m && HasSlot(m[k], id)
  }

  /** No slot id is listed under two different dates. */
  ghost predicate IdsUnderOneDate(m: map<string, seq<Slot>>)
  {
    forall k1, k2, id :: k1 in m && k2 in m && HasSlot(m[k1], id) && HasSlot(m[k2], id) ==> k1 == k2
  }

  /** No two fetched slots share an id (the id is the table's primary key). */
  ghost predicate DistinctIds(xs: seq<Slot>)
  {
    forall i, j :: 0 <= i < |xs| && 0 <= j < |xs| && xs[i].id == xs[j].id ==> i == j
  }

  /** The head of a list with distinct ids shares its id with no slot of the tail. */
  lemma DistinctTail(xs: seq<Slot>)
    requires DistinctIds(xs) && xs != []
    ensures DistinctIds(xs[1..])
    ensures forall s :: s in xs[1..] ==> s.id != xs[0].id
  {
    forall s | s in xs[1..] ensures s.id != xs[0].id {
      var j :| 0 <= j < |xs[1..]| && xs[1..][j] == s;
      assert xs[j + 1] == s;
    }
  }

  /** A slot whose id no slot of a distinct-id list carries can be put in front of it. */
  lemma DistinctCons(x: Slot, r: seq<Slot>)
    requires DistinctIds(r)
    requires forall s :: s in r ==> s.id != x.id
    ensures DistinctIds([x] + r)
  {
    var xr := [x] + r;
    forall i, j | 0 <= i < |xr| && 0 <= j < |xr| && xr[i].id == xr[j].id ensures i == j {
      if i > 0 {
        assert xr[i] == r[i - 1];
      }
      if j > 0 {
        assert xr[j] == r[j - 1];
      }
    }
  }

  /** Filtering keeps ids distinct. */
  lemma {:induction false} KeepDistinct(xs: seq<Slot>, p: Slot -> bool)
    requires DistinctIds(xs)
    ensures DistinctIds(Keep(xs, p))
  {
    if xs != [] {
      DistinctTail(xs);
      KeepDistinct(xs[1..], p);
      if p(xs[0]) {
        DistinctCons(xs[0], Keep(xs[1..], p));
      }
    }
  }

  /** Fetched slots with distinct ids, filtered and grouped, list each id under one date at most. */
  lemma AvailableIdsUnderOneDate(slots: seq<Slot>, booked: seq<SlotId>, dateKey: int -> string)
    requires DistinctIds(slots)
    ensures DistinctIds(Available(slots, booked))
    ensures IdsUnderOneDate(Grouped(Available(slots, booked), dateKey))
  {
    KeepDistinct(slots, (s: Slot) => s.id !in booked);
    GroupedIdsUnderOneDate(Available(slots, booked), dateKey);
  }

  /**
   * What the page needs of the grouping of freshly fetched slots: every list
   * holds only slots of its own date, ascending fetched slots give ascending
   * lists, and distinct fetched ids are listed under one date at most.
   */
  lemma FetchedGrouping(slots: seq<Slot>, booked: seq<SlotId>, dateKey: int -> string)
    ensures FiledByDate(Grouped(Available(slots, booked), dateKey), dateKey)
    ensures AscendingStart(slots) ==>
      forall k :: k in Grouped(Available(slots, booked), dateKey) ==>
        AscendingStart(Grouped(Available(slots, booked), dateKey)[k])
    ensures DistinctIds(slots) ==> IdsUnderOneDate(Grouped(Available(slots, booked), dateKey))
  {
    GroupedPlacesEachSlotOnce(Available(slots, booked), dateKey);
    if AscendingStart(slots) {
      KeepAscending(slots, (s: Slot) => s.id !in booked);
      GroupedListsOrdered(Available(slots, booked), dateKey);
    }
    if DistinctIds(slots) {
      AvailableIdsUnderOneDate(slots, booked, dateKey);
    }
  }

  /** Under one date at most, the date holding an id is unique. */
  lemma ListedDateUnique(m: map<string, seq<Slot>>, id: SlotId, k1: string, k2: string)
    requires IdsUnderOneDate(m)
    requires k1 in m && HasSlot(m[k1], id) && k2 in m && HasSlot(m[k2], id)
    ensures k1 == k2
  {
  }

  /**
   * The state change after a confirmed booking of `id` found under `k`:
   * that list loses exactly the slots with this id and keeps the others in
   * order; the key stays even when its list becomes empty; every other entry
   * is unchanged.
   */
  lemma RemovalTouchesOneDate(m: map<string, seq<Slot>>, k: string, id: SlotId)
    requires k in m && HasSlot(m[k], id)
    ensures var m' := m[k := WithoutSlot(m[k], id)];
      && m'.Keys == m.Keys
      && (forall k' :: k' in m && k' != k ==> m'[k'] == m[k'])
      && (forall s :: s in m'[k] <==> s in m[k] && s.id != id)
      && (forall s :: multiset(m'[k])[s] == if s.id == id then 0 else multiset(m[k])[s])
      && Subsequence(m'[k], m[k])
      && |m'[k]| < |m[k]|
  {
  }

  /** When no id is listed under two dates, a confirmed booking unlists its slot everywhere. */
  lemma RemovalUnlists(m: map<string, seq<Slot>>, k: string, id: SlotId)
    requires IdsUnderOneDate(m)
    requires k in m && HasSlot(m[k], id)
    ensures !Listed(m[k := WithoutSlot(m[k], id)], id)
    ensures IdsUnderOneDate(m[k := WithoutSlot(m[k], id)])
  {
  }

  /** Slots with distinct ids, grouped, have no id listed under two dates. */
  lemma GroupedIdsUnderOneDate(xs: seq<Slot>, dateKey: int -> string)
    requires DistinctIds(xs)
    ensures IdsUnderOneDate(Grouped(xs, dateKey))
  {
  }

  // ---------------------------------------------------------------------
  // The page's state

  /** `!selectedBarberId` is false: an id is selected and it is not the empty string. */
  predicate Truthy(id: Option<string>) {
    id.Some? && id.value != ""
  }

  class BookingPage {
    /** The locale date formatter the page groups with. */
    const dateKey: int -> string

    var barbers: seq<Barber>
    var selectedBarberId: Option<string>
    var slotsByDate: map<string, seq<Slot>>
    var selectedDate: Option<string>
    var loading: bool

    ghost predicate Valid()
      reads this
    {
      FiledByDate(slotsByDate, dateKey)
    }

    /** The state on mounting. */
    constructor (dateKey: int -> string)
      ensures Valid() && this.dateKey == dateKey
      ensures barbers == [] && selectedBarberId == None
      ensures slotsByDate == map[] && selectedDate == None && !loading
    {
      this.dateKey := dateKey;
      barbers, selectedBarberId := [], None;
      slotsByDate, selectedDate, loading := map[], None, false;
    }

    /**
     * The end of the barbers query: a non-empty result replaces the barber list
     * and selects the first barber; an error or an empty result changes nothing.
     */
    method ReceiveBarbers(result: QueryResult<seq<Barber>>)
      modifies this`barbers, this`selectedBarberId
      ensures result.Rows? && result.data != [] ==>
        barbers == result.data && selectedBarberId == Some(result.data[0].id)
      ensures !(result.Rows? && result.data != []) ==>
        barbers == old(barbers) && selectedBarberId == old(selectedBarberId)
    {
      if result.Rows? && |result.data| > 0 {
        barbers := result.data;
        selectedBarberId := Some(result.data[0].id);
      }
    }

    /** A click on a barber's button. */
    method SelectBarber(id: string)
      modifies this`selectedBarberId
      ensures selectedBarberId == Some(id)
    {
      selectedBarberId := Some(id);
    }

    /** A click on a date's button. */
    method SelectDate(date: string)
      modifies this`selectedDate
      ensures selectedDate == Some(date)
    {
      selectedDate := Some(date);
    }

    /** The start of the slots effect: nothing without a selected barber, else `loading` turns on. */
    method BeginSlotFetch() returns (started: bool)
      modifies this`loading
      ensures started == Truthy(selectedBarberId)
      ensures loading == (started || old(loading))
    {
      started := Truthy(selectedBarberId);
      if started {
        loading := true;
      }
    }

    /**
     * The end of the slots effect, given what the two queries returned. A slots
     * error empties `slotsByDate` and leaves `selectedDate`; otherwise the
     * available slots are grouped by date and the date selection is reset.
     * Either way `loading` ends false. Fetched slots in ascending start order
     * give ascending lists, and fetched slots with distinct ids list each id
     * under one date at most.
     */
    method CompleteSlotFetch(timeSlots: QueryResult<seq<Slot>>, bookings: Option<seq<BookingRow>>)
      modifies this`slotsByDate, this`selectedDate, this`loading
      ensures Valid() && !loading
      ensures timeSlots.QueryError? ==> slotsByDate == map[] && selectedDate == old(selectedDate)
      ensures timeSlots.Rows? ==>
        slotsByDate == Grouped(Available(timeSlots.data, BookedSlotIds(bookings)), dateKey) &&
        selectedDate == None
      ensures timeSlots.Rows? && AscendingStart(timeSlots.data) ==>
        forall k :: k in slotsByDate ==> AscendingStart(slotsByDate[k])
      ensures timeSlots.Rows? && DistinctIds(timeSlots.data) ==> IdsUnderOneDate(slotsByDate)
    {
      if timeSlots.QueryError? {
        slotsByDate := map[];
        loading := false;
        return;
      }
      var bookedSlotIds := BookedSlotIds(bookings);
      var available := Available(timeSlots.data, bookedSlotIds);
      var grouped := GroupByDate(available, dateKey);
      FetchedGrouping(timeSlots.data, bookedSlotIds, dateKey);
      slotsByDate := grouped;
      selectedDate := None;
      loading := false;
    }

    /**
     * `handleBooking(slotId)`, given the logged-in user (if any) and whether the
     * server accepts the insert (it rejects a slot that is already booked). Only
     * a confirmed booking of a listed slot changes `slotsByDate`: it removes the
     * slot from the list of the first date holding it (which date, if several
     * do, is left open here). When no id is listed under two dates, that date is
     * the only one holding the slot, the slot ends up listed nowhere, and ids
     * stay under one date.
     */
    method HandleBooking(slotId: SlotId, user: Option<User>, insertAccepted: bool) returns (outcome: BookingOutcome)
      requires Valid()
      modifies this`slotsByDate
      ensures Valid()
      ensures user.None? <==> outcome == LoginRequired
      ensures user.Some? && !insertAccepted <==> outcome == BookingFailed
      ensures outcome == Confirmed <==> user.Some? && insertAccepted && Listed(old(slotsByDate), slotId)
      ensures outcome == Confirmed ==>
        exists k :: k in old(slotsByDate) && HasSlot(old(slotsByDate)[k], slotId) &&
          slotsByDate == old(slotsByDate)[k := WithoutSlot(old(slotsByDate)[k], slotId)]
      ensures outcome != Confirmed ==> slotsByDate == old(slotsByDate)
      ensures outcome == Confirmed && old(IdsUnderOneDate(slotsByDate)) ==>
        forall k :: k in old(slotsByDate) && HasSlot(old(slotsByDate)[k], slotId) ==>
          slotsByDate == old(slotsByDate)[k := WithoutSlot(old(slotsByDate)[k], slotId)]
      ensures outcome == Confirmed && old(IdsUnderOneDate(slotsByDate)) ==> !Listed(slotsByDate, slotId)
      ensures old(IdsUnderOneDate(slotsByDate)) ==> IdsUnderOneDate(slotsByDate)
    {
      if user.None? {
        return LoginRequired;
      }
      if !insertAccepted {
        return BookingFailed;
      }
      if !Listed(slotsByDate, slotId) {
        return ConfirmedUnlisted;
      }
      var key :| key in slotsByDate && HasSlot(slotsByDate[key], slotId);
      if IdsUnderOneDate(slotsByDate) {
        forall k | k in slotsByDate && HasSlot(slotsByDate[k], slotId) ensures k == key {
          ListedDateUnique(slotsByDate, slotId, k, key);
        }
        RemovalUnlists(slotsByDate, key, slotId);
      }
      slotsByDate := slotsByDate[key := WithoutSlot(slotsByDate[key], slotId)];
      outcome := Confirmed;
    }
  }
}
