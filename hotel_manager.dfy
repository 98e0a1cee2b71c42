/**
 * `HotelManager`: the room and booking tables, and the operations that
 * read and change them. Every booking operation checks its guards first
 * and, when one fails, reports it and leaves both tables as they were.
 */
module Manager {
  import opened HotelTypes
  import opened Availability
  import opened BookingInvariant
  import opened RoomTable
  import opened Reports

  class HotelManager {
    /** The `rooms` table, keyed by room number. */
    var rooms: map<RoomNumber, Room>
    /** The `bookings` table, keyed by booking id. */
    var bookings: map<BookingId, Booking>

    /** What the booking operations keep: no double booking, no empty stay. */
    ghost predicate Valid()
      reads this
    {
      NoDoubleBooking(bookings) && ProperStays(bookings)
    }

    /**
     * A manager over the tables of an existing database. A fresh database
     * holds sample rooms and no bookings, and starts out valid.
     */
    constructor (rooms: map<RoomNumber, Room>, bookings: map<BookingId, Booking>)
      ensures this.rooms == rooms && this.bookings == bookings
      ensures bookings == map[] ==> Valid()
    {
      this.rooms := rooms;
      this.bookings := bookings;
    }

    // --- Rooms ---

    /** `add_room`: a new Available room under the next free number. */
    method AddRoom(kind: string, price: Cents)
      modifies this
      ensures rooms == old(rooms)[NextRoomNumber(old(rooms).Keys) := Room(kind, price, Available)]
      ensures NextRoomNumber(old(rooms).Keys) !in old(rooms)
      ensures bookings == old(bookings)
    {
      var number := NextRoomNumber(rooms.Keys);
      rooms := rooms[number := Room(kind, price, Available)];
    }

    /** `update_room_details`: overwrite type, rate and status of an existing room. */
    method UpdateRoomDetails(number: RoomNumber, kind: string, price: Cents, status: RoomStatus) returns (ok: bool)
      modifies this
      ensures ok
      ensures number in old(rooms) ==> rooms == old(rooms)[number := Room(kind, price, status)]
      ensures number !in old(rooms) ==> rooms == old(rooms)
      ensures bookings == old(bookings)
    {
      if number in rooms {
        rooms := rooms[number := Room(kind, price, status)];
      }
      ok := true;
    }

    /** `update_room_status`: overwrite the status of an existing room. */
    method UpdateRoomStatus(number: RoomNumber, status: RoomStatus) returns (ok: bool)
      modifies this
      ensures ok
      ensures rooms == SetStatus(old(rooms), number, status)
      ensures bookings == old(bookings)
    {
      if number in rooms {
        rooms := rooms[number := rooms[number].(status := status)];
      }
      ok := true;
    }

    // --- Booking and availability ---

    /**
     * `add_booking`: the guards in the source's order, then one new row
     * whose rate is the room's current rate. `id` stands for the generated
     * id; one already in use makes the INSERT fail.
     */
    method AddBooking(id: BookingId, customer: CustomerId, room: RoomNumber,
                      checkIn: Day, checkOut: Day, status: BookingStatus := Confirmed) returns (outcome: Outcome)
      modifies this
      ensures outcome ==
        if checkIn >= checkOut then Failure(InvalidDateRange)
        else if room !in old(rooms) then Failure(RoomNotFound)
        else if !IsRoomAvailable(old(bookings), room, checkIn, checkOut, None) then Failure(RoomUnavailable)
        else if id in old(bookings) then Failure(DuplicateBookingId)
        else Success
      ensures rooms == old(rooms)
      ensures outcome.Failure? ==> bookings == old(bookings)
      ensures outcome == Success ==>
        bookings == old(bookings)[id := Booking(customer, room, checkIn, checkOut, status, old(rooms)[room].price)]
      ensures outcome == Success && IsActive(status) ==> !IsRoomAvailable(bookings, room, checkIn, checkOut, None)
      ensures old(Valid()) ==> Valid()
    {
      if checkIn >= checkOut {
        return Failure(InvalidDateRange);
      }
      if room !in rooms {
        return Failure(RoomNotFound);
      }
      if !IsRoomAvailable(bookings, room, checkIn, checkOut, None) {
        return Failure(RoomUnavailable);
      }
      if id in bookings {
        return Failure(DuplicateBookingId);
      }
      var booking := Booking(customer, room, checkIn, checkOut, status, RoomPrice(rooms, room));
      IgnoringWidens(bookings, room, checkIn, checkOut, id);
      if NoDoubleBooking(bookings) {
        WriteKeepsNoDoubleBooking(bookings, id, booking);
      }
      bookings := bookings[id := booking];
      if IsActive(status) {
        BookedStayIsUnavailable(bookings, id, None);
      }
      outcome := Success;
    }

    /**
     * `update_booking`: the guards in the source's order (the booking's own
     * row ignored by the availability check), then the room-status side
     * effects, then the row rewritten with the new room, dates, status and
     * the new room's current rate. Any status is accepted.
     */
    method UpdateBooking(id: BookingId, newRoom: RoomNumber, checkIn: Day, checkOut: Day,
                         newStatus: BookingStatus) returns (outcome: Outcome)
      modifies this
      ensures outcome ==
        if id !in old(bookings) then Failure(BookingNotFound)
        else if checkIn >= checkOut then Failure(InvalidDateRange)
        else if !IsRoomAvailable(old(bookings), newRoom, checkIn, checkOut, Some(id)) then Failure(RoomUnavailable)
        else Success
      ensures outcome.Failure? ==> rooms == old(rooms) && bookings == old(bookings)
      ensures outcome == Success ==>
        var was := old(bookings)[id];
        && rooms == MoveRoomStatus(old(rooms), was.room, was.status, newRoom, newStatus)
        && bookings == old(bookings)[id := Booking(was.customer, newRoom, checkIn, checkOut, newStatus, RoomPrice(old(rooms), newRoom))]
      ensures old(Valid()) ==> Valid()
    {
      if id !in bookings {
        return Failure(BookingNotFound);
      }
      if checkIn >= checkOut {
        return Failure(InvalidDateRange);
      }
      if !IsRoomAvailable(bookings, newRoom, checkIn, checkOut, Some(id)) {
        return Failure(RoomUnavailable);
      }
      var was := bookings[id];
      // Release the old room, then claim the new one.
      if was.status == CheckedIn {
        var released := UpdateRoomStatus(was.room, Available);
      }
      if newStatus == CheckedIn {
        var claimed := UpdateRoomStatus(newRoom, Occupied);
      }
      var booking := Booking(was.customer, newRoom, checkIn, checkOut, newStatus, RoomPrice(rooms, newRoom));
      if NoDoubleBooking(bookings) {
        WriteKeepsNoDoubleBooking(bookings, id, booking);
      }
      bookings := bookings[id := booking];
      outcome := Success;
    }

    // --- Check-in, check-out, cancellation ---

    /** `check_in`: only a Confirmed booking; its room becomes Occupied. */
    method CheckIn(id: BookingId) returns (ok: bool)
      modifies this
      ensures ok <==> id in old(bookings) && old(bookings)[id].status == Confirmed
      ensures !ok ==> rooms == old(rooms) && bookings == old(bookings)
      ensures ok ==>
        && bookings == old(bookings)[id := old(bookings)[id].(status := CheckedIn)]
        && rooms == SetStatus(old(rooms), old(bookings)[id].room, Occupied)
      ensures old(Valid()) ==> Valid()
    {
      if id in bookings && bookings[id].status == Confirmed {
        var booking := bookings[id];
        if NoDoubleBooking(bookings) {
          StatusChangeKeepsNoDoubleBooking(bookings, id, CheckedIn);
        }
        bookings := bookings[id := booking.(status := CheckedIn)];
        var updated := UpdateRoomStatus(booking.room, Occupied);
        return true;
      }
      return false;
    }

    /** `check_out`: only a CheckedIn booking; its room becomes Available. */
    method CheckOut(id: BookingId) returns (ok: bool)
      modifies this
      ensures ok <==> id in old(bookings) && old(bookings)[id].status == CheckedIn
      ensures !ok ==> rooms == old(rooms) && bookings == old(bookings)
      ensures ok ==>
        && bookings == old(bookings)[id := old(bookings)[id].(status := CheckedOut)]
        && rooms == SetStatus(old(rooms), old(bookings)[id].room, Available)
      ensures old(Valid()) ==> Valid()
    {
      if id in bookings && bookings[id].status == CheckedIn {
        var booking := bookings[id];
        if NoDoubleBooking(bookings) {
          StatusChangeKeepsNoDoubleBooking(bookings, id, CheckedOut);
        }
        bookings := bookings[id := booking.(status := CheckedOut)];
        var updated := UpdateRoomStatus(booking.room, Available);
        return true;
      }
      return false;
    }

    /** `cancel_booking`: only a Confirmed booking; the room is left as it is. */
    method CancelBooking(id: BookingId) returns (ok: bool)
      modifies this
      ensures ok <==> id in old(bookings) && old(bookings)[id].status == Confirmed
      ensures rooms == old(rooms)
      ensures !ok ==> bookings == old(bookings)
      ensures ok ==> bookings == old(bookings)[id := old(bookings)[id].(status := Cancelled)]
      ensures old(Valid()) ==> Valid()
    {
      if id in bookings && bookings[id].status == Confirmed {
        if NoDoubleBooking(bookings) {
          StatusChangeKeepsNoDoubleBooking(bookings, id, Cancelled);
        }
        bookings := bookings[id := bookings[id].(status := Cancelled)];
        return true;
      }
      return false;
    }

    // --- Queries ---

    /**
     * `get_available_rooms`: exactly the rooms that are not under
     * maintenance and are free for the stay, in room-number order.
     */
    method GetAvailableRooms(checkIn: Day, checkOut: Day) returns (available: seq<RoomNumber>)
      ensures forall n :: n in available <==> Offered(rooms, bookings, n, checkIn, checkOut)
      ensures forall a, b :: 0 <= a < b < |available| ==> available[a] < available[b]
    {
      var order := NumbersInOrder(rooms.Keys);
      available := [];
      for i := 0 to |order|
        invariant forall n :: n in available <==> n in order[..i] && Offered(rooms, bookings, n, checkIn, checkOut)
        invariant forall a, b :: 0 <= a < b < |available| ==> available[a] < available[b]
        invariant forall k :: 0 <= k < |available| ==> exists j :: 0 <= j < i && order[j] == available[k]
      {
        var number := order[i];
        if rooms[number].status == Maintenance {
          continue;
        }
        if IsRoomAvailable(bookings, number, checkIn, checkOut, None) {
          available := available + [number];
        }
      }
      assert order[..|order|] == order;
    }

    /**
     * `get_reports` without the occupancy rate: one pass over the bookings,
     * in whatever order the table yields them, accumulating each booking's
     * contribution; then the room-nights of the window.
     */
    method GetReports(start: Day, end: Day) returns (report: Report)
      ensures report == ReportOf(bookings, |rooms|, start, end)
    {
      var tally := Zero;
      var rest := bookings;
      while rest.Keys != {}
        invariant Plus(tally, TallyOf(rest, start, end)) == TallyOf(bookings, start, end)
        decreases rest.Keys
      {
        var id :| id in rest;
        AccumulateStep(tally, rest, id, start, end);
        tally := Plus(tally, Contribution(rest[id], start, end));
        rest := rest - {id};
      }
      TallyOfEmpty(rest, start, end);
      PlusZero(tally);
      report := Report(tally.revenue, tally.occupiedNights, tally.completed, tally.cancelled, |rooms| * (end - start));
    }
  }
}
