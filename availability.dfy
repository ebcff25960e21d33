/** The availability check of the booking form: the snapshot of reservations is
    narrowed to the current room, and each remaining reservation is tested against
    the candidate stay with a four-clause overlap rule. Days are whole calendar days
    (the source normalises every timestamp to local midnight before comparing). */
module Availability {

  /** A calendar day, as a day number; a later day is a larger number. */
  type Day = int

  type RoomId = int

  /** One entry of the reservation snapshot, reduced to what the check reads:
      the room it belongs to and its check-in and check-out days. */
  datatype Reservation = Reservation(roomId: RoomId, checkIn: Day, checkOut: Day)

  // The four clauses of the overlap rule, in the order the source writes them.

  /** (a) the candidate's check-in falls in [existingIn, existingOut) */
  predicate StartsInside(checkIn: Day, existingIn: Day, existingOut: Day) {
    checkIn >= existingIn && checkIn < existingOut
  }

  /** (b) the candidate's check-out falls in (existingIn, existingOut] */
  predicate EndsInside(checkOut: Day, existingIn: Day, existingOut: Day) {
    checkOut > existingIn && checkOut <= existingOut
  }

  /** (c) the existing check-in falls strictly inside (checkIn, checkOut) */
  predicate ExistingStartsInside(checkIn: Day, checkOut: Day, existingIn: Day) {
    existingIn > checkIn && existingIn < checkOut
  }

  /** (d) the existing check-out falls in (checkIn, checkOut] */
  predicate ExistingEndsInside(checkIn: Day, checkOut: Day, existingOut: Day) {
    existingOut > checkIn && existingOut <= checkOut
  }

  /** The overlap rule exactly as the booking form evaluates it; it does not
      assume that either range has its check-in before its check-out. */
  predicate Overlaps(checkIn: Day, checkOut: Day, existingIn: Day, existingOut: Day) {
    || StartsInside(checkIn, existingIn, existingOut)
    || EndsInside(checkOut, existingIn, existingOut)
    || ExistingStartsInside(checkIn, checkOut, existingIn)
    || ExistingEndsInside(checkIn, checkOut, existingOut)
  }

  /** The existing reservation `r` is hit by the candidate stay. */
  predicate Clashes(r: Reservation, checkIn: Day, checkOut: Day) {
    Overlaps(checkIn, checkOut, r.checkIn, r.checkOut)
  }

  /** A stay from `checkIn` to `checkOut` occupies the room on the night of day `d`. */
  ghost predicate Occupies(d: Day, checkIn: Day, checkOut: Day) {
    checkIn <= d < checkOut
  }

  /** The reservations of one room, in snapshot order (the `filter` step). */
  function SameRoom(snapshot: seq<Reservation>, roomId: RoomId): (rooms: seq<Reservation>)
    ensures |rooms| <= |snapshot|
    ensures forall r :: r in rooms <==> r in snapshot && r.roomId == roomId
  {
    if snapshot == [] then []
    else if snapshot[0].roomId == roomId then [snapshot[0]] + SameRoom(snapshot[1..], roomId)
    else SameRoom(snapshot[1..], roomId)
  }

  /** Whether some reservation of `rooms` is hit by the candidate (the `some` step). */
  function AnyClash(rooms: seq<Reservation>, checkIn: Day, checkOut: Day): (hit: bool)
    ensures hit <==> exists r :: r in rooms && Clashes(r, checkIn, checkOut)
  {
    if rooms == [] then false
    else Clashes(rooms[0], checkIn, checkOut) || AnyClash(rooms[1..], checkIn, checkOut)
  }

  /** The availability check: the candidate stay conflicts with the snapshot
      exactly when some reservation of the same room is hit by it. */
  function Conflicts(snapshot: seq<Reservation>, roomId: RoomId, checkIn: Day, checkOut: Day): (conflict: bool)
    ensures conflict <==> exists r :: r in snapshot && r.roomId == roomId && Clashes(r, checkIn, checkOut)
  {
    AnyClash(SameRoom(snapshot, roomId), checkIn, checkOut)
  }

  /** Every reservation has its check-in strictly before its check-out. */
  ghost predicate AllWellFormed(rooms: seq<Reservation>) {
    forall i :: 0 <= i < |rooms| ==> rooms[i].checkIn < rooms[i].checkOut
  }

  /** No two distinct entries of `rooms` clash under the overlap rule. */
  ghost predicate Disjoint(rooms: seq<Reservation>) {
    forall i, j :: 0 <= i < |rooms| && 0 <= j < |rooms| && i != j ==>
      !Clashes(rooms[i], rooms[j].checkIn, rooms[j].checkOut)
  }

  /** The data invariant for one room: its reservations are well formed and
      pairwise free of overlaps. */
  ghost predicate RoomConsistent(snapshot: seq<Reservation>, roomId: RoomId) {
    AllWellFormed(SameRoom(snapshot, roomId)) && Disjoint(SameRoom(snapshot, roomId))
  }

  /** For well-formed ranges the four clauses amount to the ordinary
      half-open interval test. */
  lemma OverlapsIsHalfOpen(checkIn: Day, checkOut: Day, existingIn: Day, existingOut: Day)
    requires checkIn < checkOut && existingIn < existingOut
    ensures Overlaps(checkIn, checkOut, existingIn, existingOut)
            <==> checkIn < existingOut && existingIn < checkOut
  {
  }

  /** For well-formed ranges the rule does not depend on which range is the candidate. */
  lemma OverlapsSymmetric(checkIn: Day, checkOut: Day, existingIn: Day, existingOut: Day)
    requires checkIn < checkOut && existingIn < existingOut
    ensures Overlaps(checkIn, checkOut, existingIn, existingOut)
            == Overlaps(existingIn, existingOut, checkIn, checkOut)
  {
  }

  /** For well-formed ranges a conflict is exactly a night that both stays occupy. */
  lemma OverlapsIffSharedNight(checkIn: Day, checkOut: Day, existingIn: Day, existingOut: Day)
    requires checkIn < checkOut && existingIn < existingOut
    ensures Overlaps(checkIn, checkOut, existingIn, existingOut)
            <==> exists d :: Occupies(d, checkIn, checkOut) && Occupies(d, existingIn, existingOut)
  {
    if Overlaps(checkIn, checkOut, existingIn, existingOut) {
      var d := if checkIn < existingIn then existingIn else checkIn;
      assert Occupies(d, checkIn, checkOut) && Occupies(d, existingIn, existingOut);
    }
  }

  /** A stay that starts on the day another ends, or ends on the day another
      starts, is not a conflict; one that ends on the same day as another is. */
  lemma BoundaryDays(checkIn: Day, checkOut: Day, existingIn: Day, existingOut: Day)
    requires checkIn < checkOut && existingIn < existingOut
    ensures checkIn == existingOut ==> !Overlaps(checkIn, checkOut, existingIn, existingOut)
    ensures checkOut == existingIn ==> !Overlaps(checkIn, checkOut, existingIn, existingOut)
    ensures checkOut == existingOut ==> Overlaps(checkIn, checkOut, existingIn, existingOut)
  {
  }

  /** A reversed candidate (check-out before check-in) can only be caught by the
      clauses on its own endpoints, (a) and (b). */
  lemma ReversedCandidateEndpointsOnly(checkIn: Day, checkOut: Day, existingIn: Day, existingOut: Day)
    requires checkOut < checkIn
    ensures Overlaps(checkIn, checkOut, existingIn, existingOut)
            <==> StartsInside(checkIn, existingIn, existingOut) || EndsInside(checkOut, existingIn, existingOut)
  {
  }

  /** Without well-formed ranges the rule is not symmetric: a reversed range
      and an equal-day range each give a pair that clashes one way only. */
  lemma IllFormedRangesBreakSymmetry()
    ensures Overlaps(5, 3, 5, 6) && !Overlaps(5, 6, 5, 3)
    ensures Overlaps(5, 5, 5, 6) && !Overlaps(5, 6, 5, 5)
  {
  }

  /** Three worked cases: an existing stay of days 10 to 15 against candidates
      12 to 18 (a clash by clause (a)), 15 to 20 (back to back, free) and 5 to 15
      (a clash by clause (b)). */
  lemma DocumentedScenarios(roomId: RoomId)
    ensures Conflicts([Reservation(roomId, 10, 15)], roomId, 12, 18)
    ensures !Conflicts([Reservation(roomId, 10, 15)], roomId, 15, 20)
    ensures Conflicts([Reservation(roomId, 10, 15)], roomId, 5, 15)
  {
  }

  /** Reservations of other rooms never cause a conflict: the check gives the
      same answer on the snapshot and on its same-room part alone. */
  lemma ConflictsOnlySameRoom(snapshot: seq<Reservation>, roomId: RoomId, other: Reservation,
                              checkIn: Day, checkOut: Day)
    requires other.roomId != roomId
    ensures Conflicts(snapshot + [other], roomId, checkIn, checkOut) == Conflicts(snapshot, roomId, checkIn, checkOut)
    ensures Conflicts([other] + snapshot, roomId, checkIn, checkOut) == Conflicts(snapshot, roomId, checkIn, checkOut)
    ensures Conflicts(SameRoom(snapshot, roomId), roomId, checkIn, checkOut) == Conflicts(snapshot, roomId, checkIn, checkOut)
  {
  }

  /** Filtering a snapshot with one more entry at the end. */
  lemma {:induction false} SameRoomAppend(snapshot: seq<Reservation>, r: Reservation, roomId: RoomId)
    ensures SameRoom(snapshot + [r], roomId)
            == SameRoom(snapshot, roomId) + (if r.roomId == roomId then [r] else [])
  {
    if snapshot == [] {
      assert snapshot + [r] == [r];
    } else {
      assert (snapshot + [r])[0] == snapshot[0];
      assert (snapshot + [r])[1..] == snapshot[1..] + [r];
      SameRoomAppend(snapshot[1..], r, roomId);
    }
  }

  /** The invariant the check is there to keep: if the room's reservations are
      consistent and a well-formed stay passes the check, the room's reservations
      with that stay added are still consistent. */
  lemma AcceptedStayKeepsRoomConsistent(snapshot: seq<Reservation>, roomId: RoomId, checkIn: Day, checkOut: Day)
    requires RoomConsistent(snapshot, roomId)
    requires checkIn < checkOut
    requires !Conflicts(snapshot, roomId, checkIn, checkOut)
    ensures RoomConsistent(snapshot + [Reservation(roomId, checkIn, checkOut)], roomId)
  {
    var stay := Reservation(roomId, checkIn, checkOut);
    var rooms := SameRoom(snapshot, roomId);
    SameRoomAppend(snapshot, stay, roomId);
    var rooms' := SameRoom(snapshot + [stay], roomId);
    assert rooms' == rooms + [stay];
    var n := |rooms|;
    forall i, j | 0 <= i < |rooms'| && 0 <= j < |rooms'| && i != j
      ensures !Clashes(rooms'[i], rooms'[j].checkIn, rooms'[j].checkOut)
    {
      if i == n {
        assert rooms[j] in snapshot && rooms[j].roomId == roomId;
        assert !Clashes(rooms[j], checkIn, checkOut);
        OverlapsSymmetric(checkIn, checkOut, rooms[j].checkIn, rooms[j].checkOut);
      } else if j == n {
        assert rooms[i] in snapshot && rooms[i].roomId == roomId;
      } else {
        assert rooms'[i] == rooms[i] && rooms'[j] == rooms[j];
      }
    }
  }
}
