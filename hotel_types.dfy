/**
 * The records of the hotel store: rooms and bookings, as the `rooms` and
 * `bookings` tables of `HotelManager` hold them.
 *
 * Dates are day numbers (the store keeps ISO `YYYY-MM-DD` strings, whose
 * string order is date order), prices are integer cents.
 */
module HotelTypes {

  datatype Option<+T> = None | Some(value: T)

  /** A room number; the store keeps it as text and orders rooms by it. */
  type RoomNumber = nat

  /** A booking identifier such as "B51234". */
  type BookingId = string

  type CustomerId = string

  /** A calendar day, as a day number. */
  type Day = int

  /** An amount of money in cents. */
  type Cents = int

  datatype RoomStatus = Available | Occupied | Maintenance

  datatype BookingStatus = Confirmed | CheckedIn | CheckedOut | Cancelled

  /** A row of the `rooms` table, without its key. */
  datatype Room = Room(kind: string, price: Cents, status: RoomStatus)

  /**
   * A row of the `bookings` table, without its key. The stay is the
   * half-open range of nights [checkIn, checkOut); `pricePerNight` is the
   * room's rate when the booking was last written.
   */
  datatype Booking = Booking(
    customer: CustomerId,
    room: RoomNumber,
    checkIn: Day,
    checkOut: Day,
    status: BookingStatus,
    pricePerNight: Cents)

  /** Why `add_booking` or `update_booking` refused to change the store. */
  datatype Reason =
    | InvalidDateRange     // check-out is not after check-in
    | RoomNotFound
    | RoomUnavailable      // an active booking overlaps the stay
    | BookingNotFound
    | DuplicateBookingId   // the INSERT hit an existing primary key

  /** The `(success, message)` pair of the booking operations, without the text. */
  datatype Outcome = Success | Failure(reason: Reason)

  /** Bookings that hold their room: the statuses the availability query filters on. */
  predicate IsActive(s: BookingStatus)
  {
    s == Confirmed || s == CheckedIn
  }
}
