# Salon booking frontend: verified model of the client-side logic

The repository is a React frontend for a salon-appointment platform. A hosted
backend stores the data, handles authentication and prevents double bookings.
The small amount of logic that runs in the browser is modelled here:

- **Booking page** (`Booking`). For the selected barber, the page fetches the
  future time slots. It removes every slot whose id appears in the bookings
  table, then groups the rest by calendar date with a `reduce` that pushes
  onto one list per date. After a confirmed booking it drops the booked slot
  from its date's list. The filter is a function. The `reduce` is a method
  with a loop, proved equal to a reference grouping (`Grouped`). The page
  state (`slotsByDate`, `selectedDate`, `loading`, the barbers and the
  selected barber) is a class updated by one method per handler.
- **Carousels** (`Carousel`, `Testimonials`, `Gallery`). The steps are
  `(i + 1) % n` and `(i - 1 + n) % n`. The model proves they stay in range,
  that each undoes the other, and that `n` steps in one direction return to
  the start. The testimonial carousel has one index over the four fixed
  quotes. The image gallery has two independent indices (slideshow and modal)
  and a `showModal` flag. Each is a class whose handler methods may change
  only the fields they modify.
- **Forms** (`ResetPassword`, `SignUp`, shared toasts in `Notices`). The
  reset form checks first that the two passwords match, then that the
  password is at least 6 UTF-16 code units long. Only after both checks does
  it set `loading` and call the password update. The sign-up form rejects
  mismatched passwords and has no length check. Its change handler replaces
  one named field of the form record.
- **Dashboard** (`Dashboard`). Pure functions cover the "past booking" test,
  the status badge, the short id, defaults for missing values, the booking
  card and the page view. One more function gives the state after the fetch
  that runs once on mount.

Inputs stand in for the backend and the browser:

- query results, the insert's success, the logged-in user, the storage
  listing and the update call's result are method parameters;
- timestamps are integers, and "now" is a parameter;
- the locale date formatter is the page's `const dateKey: int -> string`,
  about which nothing is assumed.

## Model

| member | source | states |
|---|---|---|
| `Booking.BookedSlotIds` | src/components/pages/BookingPage.jsx:69-73 | No bookings data gives no booked ids. Otherwise there is one id per booking row, in row order. |
| `Booking.Available` | src/components/pages/BookingPage.jsx:75 | A slot is available iff it was fetched and its id is not booked. Each kept slot keeps its multiplicity, booked ones have none, and the result is a subsequence of the fetched list (original order). |
| `Booking.NoBookingsAllAvailable` | src/components/pages/BookingPage.jsx:73-75 | When the bookings query returns no data, every fetched slot is available, in the same order. |
| `Booking.GroupByDate` | src/components/pages/BookingPage.jsx:78-83 | The push-into-accumulator loop returns exactly the reference grouping `Grouped` of the available slots. |
| `Booking.GroupedSnoc` | src/components/pages/BookingPage.jsx:80-81 | One `reduce` step (create the date's list if missing, then push) turns the grouping of a prefix into the grouping of the prefix extended by one slot. |
| `Booking.GroupedPlacesEachSlotOnce` | src/components/pages/BookingPage.jsx:78-83 | Keys are exactly the dates of the available slots. A slot is in the list under date k iff it is available and falls on k, so each available slot is in exactly one list and no other slot is in any list. |
| `Booking.GroupedListsNonEmpty` | src/components/pages/BookingPage.jsx:80-81 | Grouping never yields an empty list. |
| `Booking.GroupedListsOrdered` | src/components/pages/BookingPage.jsx:54-83 | Each date's list is a subsequence of the input. When the fetched slots are sorted ascending by start time (the query's order), each date's list is sorted too. |
| `Booking.WithoutSlot` | src/components/pages/BookingPage.jsx:121 | The filtered list holds exactly the slots whose id differs from the booked id, each with its multiplicity, in order and without that id. It is strictly shorter when the id was there. |
| `Booking.RemovalTouchesOneDate` | src/components/pages/BookingPage.jsx:116-123 | After removal under date k, k's list loses only the booked id's slots and keeps every other slot, with its multiplicity, in order. The set of keys is unchanged, so k stays even if its list is empty, and every other date's list is unchanged. |
| `Booking.RemovalUnlists` | src/components/pages/BookingPage.jsx:116-123 | If no id is listed under two dates, after the removal the booked id is listed nowhere, and still no id is under two dates. |
| `Booking.GroupedIdsUnderOneDate` | src/components/pages/BookingPage.jsx:78-83 | Grouping slots with distinct ids lists each id under at most one date. |
| `Booking.AvailableIdsUnderOneDate` | src/components/pages/BookingPage.jsx:75-83 | Fetched slots with distinct ids stay distinct after the availability filter, so the grouping lists each id under at most one date. |
| `Booking.FetchedGrouping` | src/components/pages/BookingPage.jsx:54-83 | The grouping of freshly fetched available slots files every slot under its own date, keeps each list ascending when the query's order is ascending, and lists each id under one date at most when the fetched ids are distinct. |
| `Booking.ListedDateUnique` | src/components/pages/BookingPage.jsx:118-120 | When no id is listed under two dates, the date `find` looks for is unique. |
| `Booking.BookingPage.constructor` | src/components/pages/BookingPage.jsx:7-12 | Initial state: no barbers, no selection, empty `slotsByDate`, no selected date, not loading. |
| `Booking.BookingPage.ReceiveBarbers` | src/components/pages/BookingPage.jsx:39-42 | A non-empty result replaces the barbers and selects the first barber's id. An error or an empty list leaves both untouched. |
| `Booking.BookingPage.SelectBarber` | src/components/pages/BookingPage.jsx:135 | A barber click selects that barber's id. |
| `Booking.BookingPage.SelectDate` | src/components/pages/BookingPage.jsx:158 | A date click selects that date. |
| `Booking.BookingPage.BeginSlotFetch` | src/components/pages/BookingPage.jsx:50-53 | The effect runs iff the selected barber id is truthy. Only then does `loading` become true. |
| `Booking.BookingPage.CompleteSlotFetch` | src/components/pages/BookingPage.jsx:61-87 | A slot-query error empties `slotsByDate` and leaves `selectedDate`. A successful fetch stores the grouping of the available slots and resets `selectedDate`. `loading` ends false either way, and every list holds only slots of its own date. Ascending fetched slots (the query's order, line 59) give ascending lists, and fetched slots with distinct ids list each id under at most one date. |
| `Booking.BookingPage.HandleBooking` | src/components/pages/BookingPage.jsx:94-125 | No user: "login" outcome. Rejected insert: "failed" outcome. Only a confirmed booking of a listed slot changes `slotsByDate`, replacing one date's list that held the slot by that list without the slot. When no id is listed under two dates, that date is the only one holding the slot, the slot ends up listed nowhere, and ids stay under one date. |
| `Carousel.Next` | src/components/Testimonials.jsx:44 | `(i + 1) % n` is in range and wraps from n-1 to 0. |
| `Carousel.Prev` | src/components/Testimonials.jsx:48 | `(i - 1 + n) % n` is in range and wraps from 0 to n-1. |
| `Carousel.NextPrevInverse` | src/components/Testimonials.jsx:43-49 | Next then previous, and previous then next, restore an index in range. |
| `Carousel.AdvanceFullCycle` | src/components/Testimonials.jsx:44 | n consecutive "next" steps return to the starting index. |
| `Carousel.RewindFullCycle` | src/components/Testimonials.jsx:48 | n consecutive "previous" steps return to the starting index. |
| `Testimonials.Stars` | src/components/Testimonials.jsx:96-101 | The star row always has 5 stars. |
| `Testimonials.FilledStars` | src/components/Testimonials.jsx:99 | Star i is filled iff i < rating. So the number of filled stars is the rating clamped to [0, 5], and the filled stars come first. |
| `Testimonials.Dots` | src/components/Testimonials.jsx:145-152 | There is one dot per quote. |
| `Testimonials.OneDotLit` | src/components/Testimonials.jsx:149 | Dot k is lit iff k == activeIndex, so exactly one dot is lit when the index is in range. |
| `Testimonials.TestimonialCarousel.constructor` | src/components/Testimonials.jsx:41 | `activeIndex` starts at 0, which is in range for the 4 quotes. |
| `Testimonials.TestimonialCarousel.Current` | src/components/Testimonials.jsx:113 | The shown quote is one of the catalogue's. |
| `Testimonials.TestimonialCarousel.DotRow` | src/components/Testimonials.jsx:145-152 | The carousel's dot row has one dot per quote, with exactly one lit: the active one. |
| `Testimonials.TestimonialCarousel.NextTestimonial` | src/components/Testimonials.jsx:43-45 | The index becomes `Next` of the old index mod 4 and stays in range. |
| `Testimonials.TestimonialCarousel.PrevTestimonial` | src/components/Testimonials.jsx:47-49 | The index becomes `Prev` of the old index mod 4 and stays in range. |
| `Testimonials.TestimonialCarousel.SelectDot` | src/components/Testimonials.jsx:148 | A dot click sets the index to that dot, which is in range. |
| `Testimonials.NextThenPrev` | src/components/Testimonials.jsx:43-49 | Clicking next then previous leaves the carousel where it was. |
| `Gallery.SalonImageGallery.constructor` | src/components/SalonImageGallery.jsx:7-10 | No images, both indices 0, modal closed. |
| `Gallery.SalonImageGallery.SlideshowShown` | src/components/SalonImageGallery.jsx:70 | The slideshow and its navigation exist iff there is at least one image. |
| `Gallery.SalonImageGallery.ModalShown` | src/components/SalonImageGallery.jsx:117 | The modal is displayed iff `showModal` is true and there is at least one image. |
| `Gallery.SalonImageGallery.ReceiveImages` | src/components/SalonImageGallery.jsx:21-37 | A listing error changes nothing. A listing replaces the images, possibly with an empty list, and leaves the indices alone. |
| `Gallery.SalonImageGallery.FirstLoad` | src/components/SalonImageGallery.jsx:7-36 | The first non-empty load after mount puts both indices in range. |
| `Gallery.SalonImageGallery.NextImage` | src/components/SalonImageGallery.jsx:46-48 | Only `currentImageIndex` changes, to `Next` of the old value, in range. |
| `Gallery.SalonImageGallery.PrevImage` | src/components/SalonImageGallery.jsx:50-52 | Only `currentImageIndex` changes, to `Prev` of the old value, in range. |
| `Gallery.SalonImageGallery.SelectImage` | src/components/SalonImageGallery.jsx:100 | An indicator click sets only `currentImageIndex`. |
| `Gallery.SalonImageGallery.OpenModal` | src/components/SalonImageGallery.jsx:54-57 | Sets `modalImageIndex` to the given index and `showModal` to true. `currentImageIndex` and the images do not change. |
| `Gallery.SalonImageGallery.ClickMainImage` | src/components/SalonImageGallery.jsx:78 | Clicking the slideshow image shows the modal on the current image. |
| `Gallery.SalonImageGallery.NextModalImage` | src/components/SalonImageGallery.jsx:59-61 | Only `modalImageIndex` changes, to `Next` of the old value, in range. |
| `Gallery.SalonImageGallery.PrevModalImage` | src/components/SalonImageGallery.jsx:63-65 | Only `modalImageIndex` changes, to `Prev` of the old value, in range. |
| `Gallery.SalonImageGallery.SelectModalImage` | src/components/SalonImageGallery.jsx:151 | A modal indicator click sets only `modalImageIndex`. |
| `Gallery.SalonImageGallery.CloseModal` | src/components/SalonImageGallery.jsx:123 | The backdrop click (and the close button at line 160) sets only `showModal`, to false. |
| `Gallery.BrowseModal` | src/components/SalonImageGallery.jsx:54-65 | Opening the modal, stepping next then previous, and closing leaves the slideshow index unchanged. The modal index ends where the modal opened. |
| `ResetPassword.Utf16Length` | src/components/pages/ResetPassword.jsx:33 | `length` counts UTF-16 code units: between 1x and 2x the number of characters, and exactly 1x when every character is in the Basic Multilingual Plane. |
| `ResetPassword.Validate` | src/components/pages/ResetPassword.jsx:28-36 | Mismatch iff the entries differ. Too short iff they agree and the length is below 6. Accepted iff they agree and the length is at least 6. |
| `ResetPassword.Rejection` | src/components/pages/ResetPassword.jsx:29-34 | A rejected check produces an error toast. |
| `ResetPassword.MismatchReportedFirst` | src/components/pages/ResetPassword.jsx:28-31 | Differing entries get the mismatch message even when the password is also too short. |
| `ResetPassword.LengthBoundary` | src/components/pages/ResetPassword.jsx:33-36 | Any matching entries of length 6 pass; any of length 5 are too short. |
| `ResetPassword.UpdateNotice` | src/components/pages/ResetPassword.jsx:45-66 | A success toast iff the update succeeded. A failed update with a message shows that message. |
| `ResetPassword.ResetPasswordForm.constructor` | src/components/pages/ResetPassword.jsx:9-11 | Both entries empty, not loading. |
| `ResetPassword.ResetPasswordForm.SetPassword` | src/components/pages/ResetPassword.jsx:95 | Only the password entry changes. |
| `ResetPassword.ResetPasswordForm.SetConfirmPassword` | src/components/pages/ResetPassword.jsx:107 | Only the confirmation entry changes. |
| `ResetPassword.ResetPasswordForm.HandleSubmit` | src/components/pages/ResetPassword.jsx:25-70 | The update is called iff `Validate` accepts. A rejected attempt shows its toast and leaves `loading` as it was. An accepted attempt ends with `loading` false. The redirect is scheduled iff the update succeeded. |
| `SignUp.WithField` | src/components/SignUpForm.jsx:58-63 | The named field gets the new value and every other field is unchanged. |
| `SignUp.FieldsDetermineForm` | src/components/SignUpForm.jsx:8-13 | A form record is determined by its four fields. |
| `SignUp.WithFieldUnique` | src/components/SignUpForm.jsx:58-63 | `WithField`'s contract fixes its result: any record whose named field has the new value and whose other fields are the old ones is that record. |
| `SignUp.WithFieldLaws` | src/components/SignUpForm.jsx:58-63 | Writing back a field's own value is a no-op. Of two writes to the same field, the later one wins. |
| `SignUp.WithFieldCommutes` | src/components/SignUpForm.jsx:58-63 | Writes to two different fields commute. |
| `SignUp.SignUpForm.constructor` | src/components/SignUpForm.jsx:8-14 | All four fields empty, not loading. |
| `SignUp.SignUpForm.HandleChange` | src/components/SignUpForm.jsx:58-63 | `formData` becomes `WithField` of the old record. Nothing else changes. |
| `SignUp.SignUpForm.HandleSubmit` | src/components/SignUpForm.jsx:18-56 | A mismatch is rejected with `formData` and `isLoading` unchanged. Otherwise all four fields (email, password, confirmPassword, phone) are reset to the empty string, the login page is requested and `isLoading` ends false. |
| `SignUp.AnyMatchingPasswordAccepted` | src/components/SignUpForm.jsx:21-26 | Any matching passwords are accepted, a one-character one included: this form has no length check. |
| `Dashboard.IsPastBooking` | src/components/UserDashboard.jsx:86-90 | A booking with no start time, or an invalid date, is never past. With a start time t it is past iff t < now. |
| `Dashboard.PastStaysPast` | src/components/UserDashboard.jsx:86-90 | A past booking stays past at every later "now". |
| `Dashboard.Status` | src/components/UserDashboard.jsx:219-225 | The label is "Previous" iff the booking is past, otherwise "Confirmed". The grey style goes exactly with "Previous". |
| `Dashboard.ShortId` | src/components/UserDashboard.jsx:122 | The result is a prefix of `booking_id`: its first 8 characters, or the whole id if it is no longer. |
| `Dashboard.CardOf` | src/components/UserDashboard.jsx:112-226 | A card shows "Booking #" and the short id, the price (line 132) or 0 when missing, each service's quantity (line 199) or 0 when missing, and the status badge. |
| `Dashboard.AfterFetch` | src/components/UserDashboard.jsx:14-66 | `loading` is false whatever the outcome. Fetched bookings replace the list, and a null result becomes the empty list. A failure keeps the bookings. The user is recorded once found. |
| `Dashboard.ViewOf` | src/components/UserDashboard.jsx:106-235 | A spinner iff loading. "No bookings found" iff not loading and the list is empty. Otherwise one card per booking, in order. |
| `Dashboard.FetchEndsLoading` | src/components/UserDashboard.jsx:64-66 | After the mount fetch the spinner is gone. When no bookings were fetched, the page shows "No bookings found". |

## Left out

- Backend calls (queries, the booking insert, auth lookups, the password update, the storage listing and public URLs) are not modelled. Their results are parameters, and the server's double-booking check is the `insertAccepted` flag.
- Async ordering and races between overlapping fetches are not modelled. Each effect is split into a start and an end method, or one atomic method, and the environment chooses the order of calls.
- The `setTimeout` redirect after a password reset is not run. `HandleSubmit` only reports that the redirect is scheduled.
- Locale and time-zone formatting (`toLocaleDateString`, `toLocaleTimeString`, `formatDate`, `formatTime`) is not modelled. The date key is the abstract `dateKey`, and the dashboard's date and time texts are not shown.
- The reset page's session check on mount (ResetPassword.jsx:13-23) is not modelled, because it is an auth call followed by navigation.
- HTML `required` attributes are not modelled. The browser blocks submission of empty fields before `handleSubmit` runs; the model lets `handleSubmit` see any entries.
- Object key order of `slotsByDate` is not modelled, because `slotsByDate` is a Dafny `map`. So the order of the date buttons is not modelled either.
- Booking.BookingPage.HandleBooking: follows Object.keys insertion order only loosely. If a slot id is listed under several dates, the source removes it from the first date in key order; the model allows any date that holds it. When the fetched slot ids are distinct, `CompleteSlotFetch` establishes that no id is under two dates, and `HandleBooking` keeps this and then removes the slot from its only date.
- Booking.BookingPage.HandleBooking: when a confirmed slot is in no list, the source's state updater throws a `TypeError` (`newSlots[undefined].filter`). The model reports `ConfirmedUnlisted` and leaves the state unchanged, rather than modelling the crash.
- The bookings query's own errors are ignored by the source (BookingPage.jsx:69-73). As there, any missing data means nothing is booked.
- Gallery.SalonImageGallery.ReceiveImages: does not reset the indices, as in the source. So `IndicesInRange` is not kept across a reload with fewer images, and the model proves it only for the first load (`FirstLoad`) and after each navigation step.
- Navigation with zero images is not modelled: in JavaScript `% 0` gives `NaN`, but the buttons are not rendered then, so those methods require at least one image.
- Prices and quantities are integers. A `NaN` or floating-point price is not modelled.
- `ShortId` and the UTF-16 `length` act on Dafny characters. `slice` on an id with characters outside the Basic Multilingual Plane would cut code units instead.
- Photos, quote texts, animations and styling classes other than the status badge are left out, because they are presentation.
