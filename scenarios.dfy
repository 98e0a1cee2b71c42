/**
 * Clients of `HotelManager`: booking scenarios, each
 * followed through what the operations' contracts promise.
 */
module Scenarios {
  import opened HotelTypes
  import opened Availability
  import opened Manager

  const Standard := Room("Standard", 10000, Available)

  /**
   * A stay overlapping an existing one is refused; a stay that starts on
   * the day the existing one ends is accepted.
   */
  method AdjacentStaysScenario()
  {
    var m := new HotelManager(map[101 := Standard], map[]);
    var first := m.AddBooking("B1", "C1", 101, 10, 12);
    assert first == Success;
    assert m.bookings["B1"].pricePerNight == 10000;

    assert Blocks("B1", m.bookings["B1"], 101, 11, 13, None);
    var overlapping := m.AddBooking("B2", "C2", 101, 11, 13, Confirmed);
    assert overlapping == Failure(RoomUnavailable);

    var adjacent := m.AddBooking("B3", "C2", 101, 12, 14, Confirmed);
    assert adjacent == Success;
    assert m.Valid();
  }

  /**
   * Check-in occupies the room, check-out frees it, and the checked-out
   * booking no longer blocks its own dates.
   */
  method StayLifecycleScenario()
  {
    var m := new HotelManager(map[101 := Standard], map["B1" := Booking("C1", 101, 10, 12, Confirmed, 10000)]);
    var checkedIn := m.CheckIn("B1");
    assert checkedIn && m.rooms[101].status == Occupied;

    var cancelled := m.CancelBooking("B1");
    assert !cancelled;

    var checkedOut := m.CheckOut("B1");
    assert checkedOut && m.rooms[101].status == Available;
    assert m.bookings["B1"].status == CheckedOut;
    assert IsRoomAvailable(m.bookings, 101, 10, 12, None);

    var again := m.CheckIn("B1");
    assert !again;
  }

  /** Check-out requires a checked-in booking, check-in a confirmed one. */
  method RejectedTransitionsScenario()
  {
    var m := new HotelManager(map[101 := Standard],
      map["B1" := Booking("C1", 101, 10, 12, Confirmed, 10000),
          "B2" := Booking("C2", 101, 20, 22, Cancelled, 10000)]);
    var outEarly := m.CheckOut("B1");
    assert !outEarly;
    var inCancelled := m.CheckIn("B2");
    assert !inCancelled;
    var missing := m.CheckIn("B9");
    assert !missing;
  }

  /**
   * Moving a checked-in guest to another room for dates overlapping the old
   * stay frees the old room and occupies the new one.
   */
  method MoveCheckedInGuestScenario()
  {
    var m := new HotelManager(
      map[101 := Standard, 102 := Room("Deluxe", 15000, Available)],
      map["B1" := Booking("C1", 101, 10, 12, Confirmed, 10000)]);
    var checkedIn := m.CheckIn("B1");
    assert checkedIn;
    var moved := m.UpdateBooking("B1", 102, 11, 13, CheckedIn);
    assert moved == Success;
    assert m.rooms[101].status == Available;
    assert m.rooms[102].status == Occupied;
    assert m.bookings["B1"].pricePerNight == 15000;
  }

  /**
   * Re-submitting a booking unchanged succeeds: its own row does not block
   * it. Staying checked in on the same room keeps the room Occupied.
   */
  method UnchangedUpdateScenario()
  {
    var m := new HotelManager(map[101 := Standard.(status := Occupied)],
      map["B1" := Booking("C1", 101, 10, 12, CheckedIn, 9000)]);
    var same := m.UpdateBooking("B1", 101, 10, 12, CheckedIn);
    assert same == Success;
    assert m.rooms[101].status == Occupied;
    assert m.bookings["B1"].pricePerNight == 10000;
  }

  /**
   * The operations keep no count of guests per room: with two checked-in
   * bookings on one room (check-in does not look at dates), checking out
   * one of them marks the room Available while the other is still in.
   */
  method RoomFreedUnderCheckedInGuestScenario()
  {
    var m := new HotelManager(map[101 := Standard],
      map["B1" := Booking("C1", 101, 10, 12, Confirmed, 10000),
          "B2" := Booking("C2", 101, 12, 14, Confirmed, 10000)]);
    var first := m.CheckIn("B1");
    var second := m.CheckIn("B2");
    var out := m.CheckOut("B1");
    assert first && second && out;
    assert m.bookings["B2"].status == CheckedIn;
    assert m.rooms[101].status == Available;
  }

  /** Check-in overrides a room's Maintenance status. */
  method CheckInOverridesMaintenanceScenario()
  {
    var m := new HotelManager(map[101 := Room("Suite", 25000, Maintenance)],
      map["B1" := Booking("C1", 101, 10, 12, Confirmed, 25000)]);
    var checkedIn := m.CheckIn("B1");
    assert checkedIn && m.rooms[101].status == Occupied;
  }

  /**
   * Rooms on offer: not the booked room, not the one under maintenance;
   * a cancelled booking holds nothing.
   */
  method AvailableRoomsScenario()
  {
    var m := new HotelManager(
      map[101 := Standard, 102 := Room("Suite", 25000, Maintenance), 103 := Standard, 104 := Standard],
      map["B1" := Booking("C1", 101, 10, 12, Confirmed, 10000),
          "B2" := Booking("C2", 103, 10, 12, Cancelled, 10000)]);
    assert Blocks("B1", m.bookings["B1"], 101, 11, 13, None);
    var offered := m.GetAvailableRooms(11, 13);
    assert 101 !in offered && 102 !in offered;
    assert 103 in offered && 104 in offered;
  }
}
