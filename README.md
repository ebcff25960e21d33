# Booking availability and conflict resolution — a Dafny model

This project models the booking form of a room-reservation front end
(`components/Reservation.tsx`): what happens when a signed-in guest picks a
check-in and a check-out day and presses "Book now".

- `availability.dfy`, module `Availability`: the availability check. The
  reservation snapshot is filtered to the current room (`SameRoom`). Each
  remaining reservation is tested against the candidate stay (`AnyClash`). The
  test is the four-clause overlap rule, written clause by clause as the source
  writes it (`StartsInside`, `EndsInside`, `ExistingStartsInside`,
  `ExistingEndsInside`, combined in `Overlaps`). `Conflicts` is the whole check.
  Lemmas relate the rule to the half-open interval test and to "both stays
  occupy some night". They also state symmetry, the back-to-back and
  same-check-out cases, and that an accepted well-formed stay keeps a room's
  reservations pairwise free of overlaps.
- `booking.dfy`, module `Booking`: the workflow. `Decide` is the pure decision of
  one "Book now" press. Its checks run in the source's order: missing day, equal
  days, conflict, otherwise a create request. `Replay` runs bookings one after the
  other. Class `BookingController` is the form's state: the two chosen days, the
  single alert slot, the generation and due time of the timer that clears the
  slot, and an outbox of the create requests it has posted. `Save` is proved
  against `Decide`. `SetAlert` and `Expire` model the 3000 ms alert timer.
  Every change of the alert cancels the pending timer and schedules a new one.
  Only the timer of the latest generation can clear the slot.

Days are whole calendar days, given as integers. A chosen day is the local
midnight the calendar returns, and the check compares days after moving every
timestamp to local midnight. The model takes a stored day to be the same
local day as the one the form posted; "## Left out" says where that fails.
The yyyy-MM-dd formatter (`date-fns` `format`) is a parameter of the form
(`formatDay`). The clock is the `now` parameter of the constructor, `SetAlert`,
`Save` and `Expire`. `StaleTimerScenario` is a client of the form: it shows a
timer left over from an earlier alert failing to clear the alert that replaced
it. `RepeatedSave` shows that pressing "Book now" twice on the same free days
posts the same request twice.

Properties of the overlap rule and of validation, as the code has them:

- For well-formed ranges (check-in before check-out) the four clauses are
  exactly the half-open test `checkIn < existingOut && existingIn < checkOut`,
  and the rule is symmetric (`OverlapsIsHalfOpen`, `OverlapsSymmetric`). Two
  stays with the same check-out day conflict because they share the night
  before. The rule is asymmetric only when a range is not well formed, meaning
  its check-out is on or before its check-in (`IllFormedRangesBreakSymmetry`).
- The code rejects only equal days. A check-out before the check-in goes on to
  the availability check and is booked when nothing clashes
  (`ReversedDatesReachScan`, `ReversedStayBooked`). For such a stay only clauses
  (a) and (b) can fire (`ReversedCandidateEndpointsOnly`).

## Model

| member | source | states |
|---|---|---|
| `Availability.StartsInside` | components/Reservation.tsx:113 | clause (a): the candidate's check-in is on or after the existing check-in and before the existing check-out |
| `Availability.EndsInside` | components/Reservation.tsx:113 | clause (b): the candidate's check-out is after the existing check-in and on or before the existing check-out |
| `Availability.ExistingStartsInside` | components/Reservation.tsx:113 | clause (c): the existing check-in is strictly between the candidate's check-in and check-out |
| `Availability.ExistingEndsInside` | components/Reservation.tsx:113 | clause (d): the existing check-out is after the candidate's check-in and on or before its check-out |
| `Availability.Overlaps` | components/Reservation.tsx:111-113 | the disjunction of the four clauses, with no assumption that either range is well formed; its meaning is given by `OverlapsIsHalfOpen` and `OverlapsIffSharedNight` |
| `Availability.Clashes` | components/Reservation.tsx:91-115 | one snapshot entry tested against the candidate with the four-clause rule |
| `Availability.SameRoom` | components/Reservation.tsx:87-90 | the filtered list holds exactly the snapshot's reservations whose room id is the current room, and is no longer than the snapshot |
| `Availability.AnyClash` | components/Reservation.tsx:91-116 | the `some` over the filtered list is true exactly when some reservation in it is hit by the four-clause rule |
| `Availability.Conflicts` | components/Reservation.tsx:86-116 | the check reports a conflict exactly when some reservation of the same room in the snapshot is hit by the four-clause rule |
| `Availability.OverlapsIsHalfOpen` | components/Reservation.tsx:111-113 | for well-formed ranges the four clauses equal `checkIn < existingOut && existingIn < checkOut` |
| `Availability.OverlapsSymmetric` | components/Reservation.tsx:111-113 | for well-formed ranges, swapping candidate and existing stay gives the same answer |
| `Availability.OverlapsIffSharedNight` | components/Reservation.tsx:111-113 | for well-formed ranges, a conflict is exactly a night that both stays occupy |
| `Availability.BoundaryDays` | components/Reservation.tsx:111-113 | back-to-back stays, in either order, do not conflict; stays with the same check-out day do |
| `Availability.ReversedCandidateEndpointsOnly` | components/Reservation.tsx:111-113 | for a candidate whose check-out is before its check-in, only clauses (a) and (b) can fire |
| `Availability.IllFormedRangesBreakSymmetry` | components/Reservation.tsx:112-113 | when a range is not well formed the rule is not symmetric: a reversed pair and an equal-day pair each conflict one way and not the other |
| `Availability.DocumentedScenarios` | components/Reservation.tsx:86-116 | an existing 10–15 stay conflicts with 12–18 and 5–15, and not with the back-to-back 15–20 |
| `Availability.ConflictsOnlySameRoom` | components/Reservation.tsx:87-90 | a reservation of another room, added at either end, never changes the answer, and the answer on the same-room part alone is the same |
| `Availability.SameRoomAppend` | components/Reservation.tsx:87-90 | filtering a snapshot with one more entry at the end adds that entry exactly when it is for the room |
| `Availability.AcceptedStayKeepsRoomConsistent` | components/Reservation.tsx:86-116 | if the room's reservations are well formed and pairwise non-overlapping, adding a well-formed stay that passes the check keeps them so |
| `Booking.AlertFor` | components/Reservation.tsx:73-142 | every rejection gives an error alert with its message; an accepted booking gives the success alert with the confirmation message |
| `Booking.MessageOf` | components/Reservation.tsx:73-123 | the literal message of each rejection: missing dates, equal dates, already booked |
| `Booking.RequestFor` | components/Reservation.tsx:126-135 | the create payload: the guest's given name, family name and email, both days formatted as yyyy-MM-dd, and the room id; its fields are stated by `AcceptedIffFree` |
| `Booking.Decide` | components/Reservation.tsx:72-135 | the decision of one press, checks in source order: missing day, equal days, conflict, otherwise a create request; its meaning is given by `AcceptedIffFree` and the rejection lemmas |
| `Booking.MissingDatesRejectedBeforeScan` | components/Reservation.tsx:73-78 | with a day unset the decision is the "Please select check-in and check-out dates" error, whatever the snapshot holds |
| `Booking.SameDatesRejectedBeforeScan` | components/Reservation.tsx:79-84 | equal days give the "cannot be the same" error, whatever the snapshot holds |
| `Booking.ReversedDatesReachScan` | components/Reservation.tsx:79-91 | a check-out before the check-in passes validation; the outcome is decided by the availability check alone |
| `Booking.ReversedStayBooked` | components/Reservation.tsx:79-116 | a reversed stay around an existing reservation of the room is accepted |
| `Booking.AcceptedIffFree` | components/Reservation.tsx:119-135 | a booking is accepted exactly when both days are set, differ and no same-room reservation clashes; the request carries the guest's names and email, both formatted days and the room id |
| `Booking.ClashRejected` | components/Reservation.tsx:119-123 | set, distinct days that clash with a same-room reservation give the "already booked" error |
| `Booking.OtherRoomsIrrelevant` | components/Reservation.tsx:87-90 | adding a reservation of another room to the snapshot never changes the decision |
| `Booking.ReplayKeepsRoomConsistent` | components/Reservation.tsx:86-144 | bookings of well-formed stays made one after another, each against a snapshot holding the earlier accepted ones, never produce two overlapping reservations of the room |
| `Booking.BookingController.constructor` | components/Reservation.tsx:51-70 | on mount no day is chosen, the alert slot is empty, nothing has been posted, and the first clear is due 3000 ms later |
| `Booking.BookingController.SelectCheckIn` | components/Reservation.tsx:174-180 | the check-in calendar's selection, or its clearing, becomes the chosen check-in |
| `Booking.BookingController.SelectCheckOut` | components/Reservation.tsx:199-205 | the check-out calendar's selection, or its clearing, becomes the chosen check-out |
| `Booking.BookingController.SetAlert` | components/Reservation.tsx:64-70 | a new alert replaces the slot's content, cancels the pending timer (new generation) and is due to be cleared 3000 ms later |
| `Booking.BookingController.Expire` | components/Reservation.tsx:64-70 | a stale or not yet due timer changes nothing; the current one clears the slot, and a clear that changed the slot schedules one more timer |
| `Booking.RepeatedSave` | components/Reservation.tsx:119-144 | pressing "Book now" twice on the same free days posts the same create request twice, because the snapshot is not updated by the form's own post |
| `Booking.BookingController.Save` | components/Reservation.tsx:72-146 | the alert becomes the one for `Decide`'s outcome; exactly one create request is appended when the booking is accepted and none otherwise; the success alert does not depend on the store's answer |

## Left out

- `postData`, `fetch` and the store's answer: the POST is an append to the outbox. Its result is never read by the source, so nothing depends on it.
- `router.refresh()` after a booking: the re-fetched snapshot is not modelled in the class, whose snapshot is a fixed prop. `Replay` assumes each accepted stay is in the snapshot of the next booking. The program does not enforce that: the POST (line 138) is not awaited before the refresh (line 144), and until the refetch arrives a repeated press posts the same stay again (`RepeatedSave`). `ReplayKeepsRoomConsistent` holds only under that assumption.
- `Conflicts`, `BoundaryDays`, `ReplayKeepsRoomConsistent`: the model takes a stored day to be the local day the form posted. A stored day is `new Date` of the posted yyyy-MM-dd string (lines 93, 99), which JavaScript reads as UTC midnight. `setHours(0,0,0,0)` then gives the previous local day for a reader west of UTC. There every stored stay is compared one day early: a stored 10–15 is read as 9–14, so a candidate 14–16 passes although it shares night 14, and a back-to-back 8–10 is rejected. The model's results hold only at or east of UTC.
- A snapshot entry whose `room.data` is null makes the filter at line 89 throw, so no alert is set and nothing is posted. The `Reservation` datatype gives every entry a room id, so this case is not modelled.
- The sign-in gate (`LoginLink`, lines 212-222) is only the requirement `isUserAuthenticated` on `Save`.
- Calendar and popover rendering, and the `isPast` disabling of past days: these depend on the wall clock and a UI library.
- JavaScript `Date` arithmetic: days are integers. The equality test on raw timestamps (line 79) becomes equality of days. A check-in and check-out on the same calendar day at different times of day cannot be expressed.
- The in-place `setHours` mutation of the selected dates (lines 107-109): it only moves a selected date to midnight, and days have no time of day here.
- `date-fns` `format` (yyyy-MM-dd): it is the `formatDay` parameter, so the model does not show the string's shape.
- Alert kind `null`: the slot's type allows it, but the source never writes it, so `AlertType` has only `Error` and `Success`.
- Unmounting the form, which cancels the pending timer, is not modelled.
- Concurrent bookings by other guests between the snapshot fetch and the POST (a check-then-act race): this concerns concurrency and the remote store, not the sequential procedure.
- `components/CancelReservation.tsx` (a confirmation dialog, a DELETE and a refresh, with no decision logic) and `next.config.mjs` (image-host settings) are not part of this model. Neither is the page that loads the room and the snapshot (`app/room/[id]/page.tsx`).
