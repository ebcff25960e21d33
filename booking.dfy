/** The booking form's workflow: validation of the chosen days, the availability
    check, the create request sent to the reservation store, and the single alert
    slot that clears itself 3000 ms after each change. */
module Booking {
  import opened Availability

  datatype Option<T> = None | Some(value: T)

  const MissingDatesMessage := "Please select check-in and check-out dates"
  const SameDatesMessage := "Check-in and check-out dates cannot be the same"
  const AlreadyBookedMessage :=
    "This room is already booked for the selected dates. Please choose different dates or another room."
  const ConfirmedMessage :=
    "Your booking has been successfully confirmed! We look forward to welcoming you on your selected dates."

  /** Delay, in milliseconds, after which an alert is cleared. */
  const AlertLifetime := 3000

  datatype AlertType = Error | Success

  /** The content of the alert slot: a message and its kind. */
  datatype Alert = Alert(message: string, kind: AlertType)

  /** The signed-in guest, as the identity provider reports them. */
  datatype Guest = Guest(givenName: string, familyName: string, email: string)

  /** The `data` object of the POST that creates a reservation; the two days are
      already formatted as yyyy-MM-dd strings. */
  datatype CreateRequest = CreateRequest(firstname: string, lastname: string, email: string,
                                         checkIn: string, checkOut: string, room: RoomId)

  datatype Rejection = MissingDates | SameDates | AlreadyBooked

  /** What one press of "Book now" decides. */
  datatype Outcome = Rejected(reason: Rejection) | Accepted(request: CreateRequest)

  function MessageOf(reason: Rejection): string {
    match reason
    case MissingDates => MissingDatesMessage
    case SameDates => SameDatesMessage
    case AlreadyBooked => AlreadyBookedMessage
  }

  /** The alert the form shows for an outcome: an error for every rejection,
      the confirmation for an accepted booking. */
  function AlertFor(outcome: Outcome): (a: Alert)
    ensures a.kind == Error <==> outcome.Rejected?
    ensures outcome.Rejected? ==> a.message == MessageOf(outcome.reason)
    ensures outcome.Accepted? ==> a.message == ConfirmedMessage
  {
    match outcome
    case Rejected(reason) => Alert(MessageOf(reason), Error)
    case Accepted(_) => Alert(ConfirmedMessage, Success)
  }

  /** The create request built from the guest and the chosen days. */
  function RequestFor(user: Guest, formatDay: Day -> string, roomId: RoomId, checkIn: Day, checkOut: Day): CreateRequest {
    CreateRequest(user.givenName, user.familyName, user.email, formatDay(checkIn), formatDay(checkOut), roomId)
  }

  /** The decision of the booking form, in the order the checks run: both days
      chosen, days different, no conflict with the snapshot. */
  function Decide(checkIn: Option<Day>, checkOut: Option<Day>, snapshot: seq<Reservation>, roomId: RoomId,
                  user: Guest, formatDay: Day -> string): Outcome
  {
    if checkIn.None? || checkOut.None? then Rejected(MissingDates)
    else if checkIn.value == checkOut.value then Rejected(SameDates)
    else if Conflicts(snapshot, roomId, checkIn.value, checkOut.value) then Rejected(AlreadyBooked)
    else Accepted(RequestFor(user, formatDay, roomId, checkIn.value, checkOut.value))
  }

  /** A missing day is rejected whatever the snapshot holds: the availability
      check is never consulted. */
  lemma MissingDatesRejectedBeforeScan(checkIn: Option<Day>, checkOut: Option<Day>,
                                       snapshot: seq<Reservation>, roomId: RoomId, user: Guest, formatDay: Day -> string)
    requires checkIn.None? || checkOut.None?
    ensures Decide(checkIn, checkOut, snapshot, roomId, user, formatDay) == Rejected(MissingDates)
    ensures AlertFor(Rejected(MissingDates)) == Alert("Please select check-in and check-out dates", Error)
  {
  }

  /** Equal days are rejected whatever the snapshot holds, before any scan. */
  lemma SameDatesRejectedBeforeScan(day: Day, snapshot: seq<Reservation>, roomId: RoomId,
                                    user: Guest, formatDay: Day -> string)
    ensures Decide(Some(day), Some(day), snapshot, roomId, user, formatDay) == Rejected(SameDates)
    ensures AlertFor(Rejected(SameDates)) == Alert("Check-in and check-out dates cannot be the same", Error)
  {
  }

  /** A check-out before the check-in is not rejected by validation: it goes on
      to the availability check and is booked when that finds nothing. */
  lemma ReversedDatesReachScan(checkIn: Day, checkOut: Day, snapshot: seq<Reservation>, roomId: RoomId,
                               user: Guest, formatDay: Day -> string)
    requires checkOut < checkIn
    ensures Decide(Some(checkIn), Some(checkOut), snapshot, roomId, user, formatDay)
            == if Conflicts(snapshot, roomId, checkIn, checkOut) then Rejected(AlreadyBooked)
               else Accepted(RequestFor(user, formatDay, roomId, checkIn, checkOut))
  {
  }

  /** A booking is made exactly when both days are chosen, differ, and no
      reservation of the same room clashes with them; the request then carries
      the guest's identity, the two formatted days and the room. */
  lemma AcceptedIffFree(checkIn: Option<Day>, checkOut: Option<Day>, snapshot: seq<Reservation>, roomId: RoomId,
                        user: Guest, formatDay: Day -> string)
    ensures var outcome := Decide(checkIn, checkOut, snapshot, roomId, user, formatDay);
            outcome.Accepted? <==>
              && checkIn.Some? && checkOut.Some? && checkIn.value != checkOut.value
              && forall r :: r in snapshot && r.roomId == roomId ==> !Clashes(r, checkIn.value, checkOut.value)
    ensures var outcome := Decide(checkIn, checkOut, snapshot, roomId, user, formatDay);
            outcome.Accepted? ==>
              && outcome.request.firstname == user.givenName
              && outcome.request.lastname == user.familyName
              && outcome.request.email == user.email
              && outcome.request.checkIn == formatDay(checkIn.value)
              && outcome.request.checkOut == formatDay(checkOut.value)
              && outcome.request.room == roomId
  {
  }

  /** Chosen, distinct days that clash with a reservation of the same room give
      the "already booked" error and no request. */
  lemma ClashRejected(checkIn: Day, checkOut: Day, snapshot: seq<Reservation>, roomId: RoomId,
                      user: Guest, formatDay: Day -> string, r: Reservation)
    requires checkIn != checkOut
    requires r in snapshot && r.roomId == roomId && Clashes(r, checkIn, checkOut)
    ensures Decide(Some(checkIn), Some(checkOut), snapshot, roomId, user, formatDay) == Rejected(AlreadyBooked)
  {
  }

  /** Adding a reservation of another room to the snapshot never changes the decision. */
  lemma OtherRoomsIrrelevant(checkIn: Option<Day>, checkOut: Option<Day>, snapshot: seq<Reservation>,
                             roomId: RoomId, other: Reservation, user: Guest, formatDay: Day -> string)
    requires other.roomId != roomId
    ensures Decide(checkIn, checkOut, snapshot + [other], roomId, user, formatDay)
            == Decide(checkIn, checkOut, snapshot, roomId, user, formatDay)
  {
  }

  /** A stay the guest asks for. */
  datatype StayRequest = StayRequest(checkIn: Day, checkOut: Day)

  /** Bookings made one after the other, each against a snapshot that already
      holds every earlier accepted stay. This is an assumption about the store
      and the page's refresh: the form itself does not wait for either, and
      without them a repeated press posts the same stay again (`RepeatedSave`). */
  function Replay(store: seq<Reservation>, roomId: RoomId, user: Guest, formatDay: Day -> string,
                  requests: seq<StayRequest>): seq<Reservation>
    decreases |requests|
  {
    if requests == [] then store
    else
      var q := requests[0];
      var next :=
        if Decide(Some(q.checkIn), Some(q.checkOut), store, roomId, user, formatDay).Accepted?
        then store + [Reservation(roomId, q.checkIn, q.checkOut)]
        else store;
      Replay(next, roomId, user, formatDay, requests[1..])
  }

  /** Run sequentially with well-formed stays, the workflow never creates two
      overlapping reservations of the room. */
  lemma {:induction false} ReplayKeepsRoomConsistent(store: seq<Reservation>, roomId: RoomId, user: Guest,
                                                     formatDay: Day -> string, requests: seq<StayRequest>)
    requires RoomConsistent(store, roomId)
    requires forall k :: 0 <= k < |requests| ==> requests[k].checkIn < requests[k].checkOut
    ensures RoomConsistent(Replay(store, roomId, user, formatDay, requests), roomId)
    decreases |requests|
  {
    if requests != [] {
      var q := requests[0];
      var next := store;
      if Decide(Some(q.checkIn), Some(q.checkOut), store, roomId, user, formatDay).Accepted? {
        AcceptedStayKeepsRoomConsistent(store, roomId, q.checkIn, q.checkOut);
        next := store + [Reservation(roomId, q.checkIn, q.checkOut)];
      }
      ReplayKeepsRoomConsistent(next, roomId, user, formatDay, requests[1..]);
    }
  }

  /** A reversed stay passes the check on a room whose only reservation lies
      between its two days, and so is booked. */
  lemma ReversedStayBooked(roomId: RoomId, user: Guest, formatDay: Day -> string)
    ensures Decide(Some(20), Some(5), [Reservation(roomId, 10, 15)], roomId, user, formatDay).Accepted?
  {
  }

  /** The booking form of one room. Its props (the snapshot, the room, the
      signed-in flag, the guest and the day formatter) are fixed; its state is the
      two chosen days, the alert slot with the generation and due time of the
      timer that clears it, and the create requests it has sent. */
  class BookingController {
    const reservations: seq<Reservation>
    const roomId: RoomId
    const isUserAuthenticated: bool
    const user: Guest
    const formatDay: Day -> string

    var checkIn: Option<Day>
    var checkOut: Option<Day>
    var alert: Option<Alert>
    /** Incremented each time the alert changes, when the pending timer is
        cancelled and a new one scheduled. */
    var gen: nat
    /** The time at which the timer of generation `gen` fires. */
    var due: int
    /** The create requests sent to the reservation store, oldest first. */
    var outbox: seq<CreateRequest>

    /** Mounting the form: nothing chosen, no alert, and the first run of the
        timer effect scheduled. */
    constructor (reservations: seq<Reservation>, roomId: RoomId, isUserAuthenticated: bool, user: Guest,
                 formatDay: Day -> string, now: int)
      ensures this.reservations == reservations && this.roomId == roomId
      ensures this.isUserAuthenticated == isUserAuthenticated && this.user == user && this.formatDay == formatDay
      ensures checkIn == None && checkOut == None && alert == None
      ensures gen == 0 && due == now + AlertLifetime && outbox == []
    {
      this.reservations := reservations;
      this.roomId := roomId;
      this.isUserAuthenticated := isUserAuthenticated;
      this.user := user;
      this.formatDay := formatDay;
      checkIn, checkOut, alert := None, None, None;
      gen, due, outbox := 0, now + AlertLifetime, [];
    }

    /** The check-in calendar's selection (None when it is cleared). */
    method SelectCheckIn(day: Option<Day>)
      modifies this`checkIn
      ensures checkIn == day
    {
      checkIn := day;
    }

    /** The check-out calendar's selection (None when it is cleared). */
    method SelectCheckOut(day: Option<Day>)
      modifies this`checkOut
      ensures checkOut == day
    {
      checkOut := day;
    }

    /** Writes a new alert: it replaces whatever the slot held, the pending
        timer is cancelled, and a new one is due `AlertLifetime` ms from now. */
    method SetAlert(a: Alert, now: int)
      modifies this`alert, this`gen, this`due
      ensures alert == Some(a)
      ensures gen == old(gen) + 1 && due == now + AlertLifetime
    {
      alert := Some(a);
      gen := gen + 1;
      due := now + AlertLifetime;
    }

    /** The timer of generation `g` firing at time `now`. Only the timer of the
        latest generation, once due, clears the slot; a cleared alert is itself a
        change and schedules one more timer, while clearing an empty slot
        changes nothing. */
    method Expire(g: nat, now: int)
      modifies this`alert, this`gen, this`due
      ensures g != old(gen) || now < old(due) ==> alert == old(alert) && gen == old(gen) && due == old(due)
      ensures g == old(gen) && now >= old(due) ==> alert == None
      ensures g == old(gen) && now >= old(due) && old(alert).Some? ==> gen == old(gen) + 1 && due == now + AlertLifetime
      ensures g == old(gen) && now >= old(due) && old(alert).None? ==> gen == old(gen) && due == old(due)
    {
      if g == gen && now >= due && alert.Some? {
        alert := None;
        gen := gen + 1;
        due := now + AlertLifetime;
      }
    }

    /** "Book now": decides on the chosen days, sends the create request when
        the booking is accepted, and shows the matching alert. The success alert
        does not wait for the store's answer. */
    method Save(now: int)
      requires isUserAuthenticated
      modifies this`alert, this`gen, this`due, this`outbox
      ensures var outcome := Decide(checkIn, checkOut, reservations, roomId, user, formatDay);
              && alert == Some(AlertFor(outcome))
              && outbox == old(outbox) + (if outcome.Accepted? then [outcome.request] else [])
      ensures gen == old(gen) + 1 && due == now + AlertLifetime
    {
      if checkIn.None? || checkOut.None? {
        SetAlert(Alert(MissingDatesMessage, Error), now);
        return;
      }
      if checkIn.value == checkOut.value {
        SetAlert(Alert(SameDatesMessage, Error), now);
        return;
      }
      var isReserved := Conflicts(reservations, roomId, checkIn.value, checkOut.value);
      if isReserved {
        SetAlert(Alert(AlreadyBookedMessage, Error), now);
      } else {
        var data := RequestFor(user, formatDay, roomId, checkIn.value, checkOut.value);
        outbox := outbox + [data];
        SetAlert(Alert(ConfirmedMessage, Success), now);
      }
    }
  }

  /** A client of the form: a stale timer left over from an earlier alert
      cannot clear the alert that replaced it. */
  method StaleTimerScenario(snapshot: seq<Reservation>, roomId: RoomId, user: Guest, formatDay: Day -> string)
  {
    var form := new BookingController(snapshot, roomId, true, user, formatDay, 0);
    form.Save(100);
    var first := form.gen;
    form.SelectCheckIn(Some(12));
    form.SelectCheckOut(Some(12));
    form.Save(2000);
    assert form.alert == Some(Alert(SameDatesMessage, Error));
    form.Expire(first, 3100);
    assert form.alert == Some(Alert(SameDatesMessage, Error));
    form.Expire(form.gen, 4999);
    assert form.alert == Some(Alert(SameDatesMessage, Error));
    form.Expire(form.gen, 5000);
    assert form.alert == None;
  }

  /** A client of the form: pressing "Book now" twice on the same free days
      posts the same create request twice, because the snapshot the check reads
      is a prop that the form's own post does not update. */
  method RepeatedSave(snapshot: seq<Reservation>, roomId: RoomId, user: Guest, formatDay: Day -> string,
                      checkIn: Day, checkOut: Day) returns (sent: seq<CreateRequest>)
    requires checkIn != checkOut && !Conflicts(snapshot, roomId, checkIn, checkOut)
    ensures |sent| == 2 && sent[0] == sent[1]
    ensures sent[0] == RequestFor(user, formatDay, roomId, checkIn, checkOut)
  {
    var form := new BookingController(snapshot, roomId, true, user, formatDay, 0);
    form.SelectCheckIn(Some(checkIn));
    form.SelectCheckOut(Some(checkOut));
    form.Save(100);
    form.Save(200);
    sent := form.outbox;
  }
}
