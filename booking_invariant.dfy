/**
 * The store's central guarantee: no two active bookings on the same room
 * share a night; and why each booking mutation keeps it.
 */
module BookingInvariant {
  import opened HotelTypes
  import opened Availability

  /** Two bookings that both hold the same room on an overlapping range of nights. */
  predicate Clash(a: Booking, b: Booking)
  {
    && a.room == b.room
    && IsActive(a.status)
    && IsActive(b.status)
    && a.checkOut > b.checkIn
    && a.checkIn < b.checkOut
  }

  /** No room is double-booked. */
  predicate NoDoubleBooking(bookings: map<BookingId, Booking>)
  {
    forall i, j :: i in bookings && j in bookings && i != j ==> !Clash(bookings[i], bookings[j])
  }

  /** Every stay is at least one night long. */
  predicate ProperStays(bookings: map<BookingId, Booking>)
  {
    forall id :: id in bookings ==> bookings[id].checkIn < bookings[id].checkOut
  }

  /**
   * Writing booking `id` (new or replaced) keeps the store free of double
   * bookings when the written booking is inactive or passed the
   * availability check with its own id ignored: the guard of `add_booking`
   * and of `update_booking`.
   */
  lemma WriteKeepsNoDoubleBooking(bookings: map<BookingId, Booking>, id: BookingId, b: Booking)
    requires NoDoubleBooking(bookings)
    requires IsActive(b.status) ==> IsRoomAvailable(bookings, b.room, b.checkIn, b.checkOut, Some(id))
    ensures NoDoubleBooking(bookings[id := b])
  {
    var after := bookings[id := b];
    forall i, j | i in after && j in after && i != j
      ensures !Clash(after[i], after[j])
    {
      if i == id && IsActive(b.status) {
        assert !Blocks(j, bookings[j], b.room, b.checkIn, b.checkOut, Some(id));
      } else if j == id && IsActive(b.status) {
        assert !Blocks(i, bookings[i], b.room, b.checkIn, b.checkOut, Some(id));
      }
    }
  }

  /**
   * Changing only the status of booking `id` keeps the store free of double
   * bookings when the new status is inactive or the old one was already
   * active: check-in (Confirmed to CheckedIn), check-out and cancellation.
   */
  lemma StatusChangeKeepsNoDoubleBooking(bookings: map<BookingId, Booking>, id: BookingId, status: BookingStatus)
    requires NoDoubleBooking(bookings)
    requires id in bookings
    requires IsActive(status) ==> IsActive(bookings[id].status)
    ensures NoDoubleBooking(bookings[id := bookings[id].(status := status)])
  {
    var after := bookings[id := bookings[id].(status := status)];
    forall i, j | i in after && j in after && i != j
      ensures !Clash(after[i], after[j])
    {
      assert !Clash(bookings[i], bookings[j]);
    }
  }

  /**
   * In a store without double bookings, an active booking never blocks its
   * own room and dates when its id is ignored, so re-submitting a booking
   * unchanged to `update_booking` passes the availability check.
   */
  lemma OwnStayStaysAvailable(bookings: map<BookingId, Booking>, id: BookingId)
    requires NoDoubleBooking(bookings)
    requires id in bookings && id != ""
    requires IsActive(bookings[id].status)
    ensures IsRoomAvailable(bookings, bookings[id].room, bookings[id].checkIn, bookings[id].checkOut, Some(id))
  {
    var b := bookings[id];
    forall j | j in bookings
      ensures !Blocks(j, bookings[j], b.room, b.checkIn, b.checkOut, Some(id))
    {
      if j != id {
        assert !Clash(bookings[j], b);
      }
    }
  }
}
