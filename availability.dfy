/**
 * The availability check: the `COUNT(*)` query of `is_room_available`
 * over the booking table, and what its two strict comparisons mean.
 */
module Availability {
  import opened HotelTypes

  /**
   * `if booking_id_to_ignore:` in the source: no id, or the empty id, both
   * leave every booking in the count.
   */
  predicate Ignored(id: BookingId, ignore: Option<BookingId>)
  {
    ignore.Some? && ignore.value != "" && id == ignore.value
  }

  /** The WHERE clause of the availability query, for the row `id` ↦ `b`. */
  predicate Blocks(id: BookingId, b: Booking, room: RoomNumber, checkIn: Day, checkOut: Day, ignore: Option<BookingId>)
  {
    && b.room == room
    && IsActive(b.status)
    && b.checkOut > checkIn
    && b.checkIn < checkOut
    && !Ignored(id, ignore)
  }

  /** The rows the availability query counts. */
  function OverlapCount(bookings: map<BookingId, Booking>, room: RoomNumber, checkIn: Day, checkOut: Day, ignore: Option<BookingId>): nat
  {
    |set id | id in bookings && Blocks(id, bookings[id], room, checkIn, checkOut, ignore)|
  }

  /**
   * `is_room_available`: the count is zero exactly when no active booking
   * on the room, other than the ignored one, overlaps the stay.
   */
  function IsRoomAvailable(bookings: map<BookingId, Booking>, room: RoomNumber, checkIn: Day, checkOut: Day, ignore: Option<BookingId>): (available: bool)
    ensures available <==> forall id :: id in bookings ==> !Blocks(id, bookings[id], room, checkIn, checkOut, ignore)
  {
    var blocking := set id | id in bookings && Blocks(id, bookings[id], room, checkIn, checkOut, ignore);
    assert forall id :: id in bookings && Blocks(id, bookings[id], room, checkIn, checkOut, ignore) ==> id in blocking;
    OverlapCount(bookings, room, checkIn, checkOut, ignore) == 0
  }

  /**
   * The selection of `get_available_rooms`: an existing room that is not
   * under maintenance and is free for the whole stay.
   */
  predicate Offered(rooms: map<RoomNumber, Room>, bookings: map<BookingId, Booking>, number: RoomNumber, checkIn: Day, checkOut: Day)
  {
    number in rooms && rooms[number].status != Maintenance && IsRoomAvailable(bookings, number, checkIn, checkOut, None)
  }

  /** Night `d` lies in the half-open range [lo, hi). */
  predicate Covers(lo: Day, hi: Day, d: Day)
  {
    lo <= d < hi
  }

  /**
   * The two strict comparisons of the query hold exactly when the existing
   * stay and the requested one share a night: half-open intervals, so a stay
   * that ends on the day another begins does not conflict with it.
   */
  lemma OverlapIffSharedNight(b: Booking, checkIn: Day, checkOut: Day)
    requires b.checkIn < b.checkOut && checkIn < checkOut
    ensures (b.checkOut > checkIn && b.checkIn < checkOut)
        <==> exists d :: Covers(b.checkIn, b.checkOut, d) && Covers(checkIn, checkOut, d)
  {
    if b.checkOut > checkIn && b.checkIn < checkOut {
      var d := if b.checkIn < checkIn then checkIn else b.checkIn;
      assert Covers(b.checkIn, b.checkOut, d) && Covers(checkIn, checkOut, d);
    }
  }

  /** Cancelled and checked-out bookings never make a room unavailable. */
  lemma InactiveNeverBlocks(bookings: map<BookingId, Booking>, id: BookingId, b: Booking,
                            room: RoomNumber, checkIn: Day, checkOut: Day, ignore: Option<BookingId>)
    requires !IsActive(b.status)
    ensures IsRoomAvailable(bookings[id := b], room, checkIn, checkOut, ignore)
        == IsRoomAvailable(bookings - {id}, room, checkIn, checkOut, ignore)
  {
    var with := bookings[id := b];
    var without := bookings - {id};
    assert !Blocks(id, with[id], room, checkIn, checkOut, ignore);
    assert forall j :: j in with && j != id ==> j in without && with[j] == without[j];
  }

  /** Ignoring a booking can only make a room more available. */
  lemma IgnoringWidens(bookings: map<BookingId, Booking>, room: RoomNumber, checkIn: Day, checkOut: Day, id: BookingId)
    requires IsRoomAvailable(bookings, room, checkIn, checkOut, None)
    ensures IsRoomAvailable(bookings, room, checkIn, checkOut, Some(id))
  {
  }

  /**
   * Once an active booking holds a non-empty stay, that stay is no longer
   * available on its room, unless that very booking is ignored.
   */
  lemma BookedStayIsUnavailable(bookings: map<BookingId, Booking>, id: BookingId, ignore: Option<BookingId>)
    requires id in bookings
    requires IsActive(bookings[id].status)
    requires bookings[id].checkIn < bookings[id].checkOut
    requires !Ignored(id, ignore)
    ensures !IsRoomAvailable(bookings, bookings[id].room, bookings[id].checkIn, bookings[id].checkOut, ignore)
  {
    assert Blocks(id, bookings[id], bookings[id].room, bookings[id].checkIn, bookings[id].checkOut, ignore);
  }
}
