# Hotel booking and availability engine, in Dafny

A model of the booking core of `HotelManager` in the hotel management
system's `main.py`. The store holds two tables: rooms (number, type, nightly
rate, status) and bookings (id, customer, room, check-in, check-out, status,
price per night). The model covers the availability query, the booking
lifecycle (add, update, check in, check out, cancel), the room operations,
and the counters of the report. The guarantee at the centre is that no two
active (Confirmed or CheckedIn) bookings on the same room share a night.

Layout, one module per part of the engine:

- `hotel_types.dfy` (`HotelTypes`): the records, the two status enumerations,
  the failure reasons and `IsActive`.
- `availability.dfy` (`Availability`): the `WHERE` clause of the availability
  query as a predicate `Blocks`, the row count `OverlapCount`, the query
  `IsRoomAvailable`, the selection `Offered` of `get_available_rooms`, and
  what the two strict comparisons mean for half-open stays.
- `booking_invariant.dfy` (`BookingInvariant`): the invariant
  `NoDoubleBooking` and why each kind of booking write keeps it.
- `room_table.dfy` (`RoomTable`): status updates, the price lookup, the room
  side effects of `update_booking`, the listing order, and the number
  `add_room` picks.
- `reports.dfy` (`Reports`): one booking's contribution to the report
  (`Contribution`), the order-independent sum over the table (`TallyOf`), and
  properties of both.
- `hotel_manager.dfy` (`Manager`): the class `HotelManager`. Its fields are the
  two tables as maps. Its methods change them step by step, in the source's
  order. The postcondition of each booking operation (add, update, check in,
  check out, cancel) gives the outcome (failure reasons in the source's
  order), the whole new state, and `old(Valid()) ==> Valid()`. The room
  operations give the new room table and leave the bookings unchanged. The
  two queries state what they return.
- `scenarios.dfy` (`Scenarios`): client methods that walk through booking
  scenarios using only the operations' contracts. They cover adjacent stays,
  the stay lifecycle, rejected transitions, moving a checked-in guest, an
  unchanged update, and rooms on offer. Two more show room-status
  behaviour described below.

Dates are day numbers; the source compares ISO `YYYY-MM-DD` strings, which
order like the dates they name. Prices and revenue are integer cents.

Room status in the code is set only by the operations, never worked out
from the bookings. The model keeps this behaviour, and two scenarios show
what follows from it. `check_in` sets Occupied even on a room under
Maintenance. `check_out` sets a room Available even while another
checked-in booking still holds it; `check_in` does not look at dates, so
two bookings on one room can both be checked in. The cancelled-bookings
counter also needs a positive overlap with the window. Because of that, its
inclusive test `b_in <= end_date` never admits a check-in on the window's
last day (`Reports.CancelledCountedIff`).

## Model

| member | source | states |
|---|---|---|
| `Availability.IsRoomAvailable` | main.py:189-208 | The room is available exactly when no booking on that room is Confirmed or CheckedIn, has `check_out > in` and `check_in < out`, and is not the ignored id. A missing or empty ignored id ignores nothing. |
| `Availability.OverlapIffSharedNight` | main.py:196-197 | For non-empty stays, the two strict comparisons hold exactly when the two stays share a night. So a stay that ends on the day another begins does not conflict with it. |
| `Availability.InactiveNeverBlocks` | main.py:195 | A Cancelled or CheckedOut booking never changes availability. Availability with it in the table equals availability with it removed. |
| `Availability.IgnoringWidens` | main.py:201-203 | Ignoring a booking id never turns an available room unavailable. |
| `Availability.BookedStayIsUnavailable` | main.py:192-208 | An active booking with a non-empty stay makes its own room and dates unavailable, unless that booking is the ignored one. |
| `BookingInvariant.WriteKeepsNoDoubleBooking` | main.py:169-258 | Writing a booking (a new row or a rewritten one) keeps every room free of double bookings. It needs the written booking to be inactive or to pass the availability check with its own id ignored. |
| `BookingInvariant.StatusChangeKeepsNoDoubleBooking` | main.py:280-304 | A status-only change that never makes an inactive booking active keeps every room free of double bookings. This covers check-in, check-out and cancellation. |
| `BookingInvariant.OwnStayStaysAvailable` | main.py:221-232 | In a store without double bookings, an active booking with a non-empty id passes the availability check for its own room and dates when its id is ignored. So an unchanged update passes. |
| `RoomTable.MoveRoomStatus` | main.py:234-248 | Net room effect of an update. The new room ends Occupied when the new status is CheckedIn, even if it is the old room released just before. Otherwise the old room ends Available when the booking was CheckedIn. No other room, and no type or rate, changes. |
| `RoomTable.NumbersInOrder` | main.py:129-133 | The room listing holds every room number exactly once, in strictly increasing order. |
| `RoomTable.MaxNumber` | main.py:95-96 | The SQL `MAX` over room numbers is a number in use, and no number in use is larger. |
| `RoomTable.NextRoomNumber` | main.py:94-97 | The number `add_room` picks (101 when there is no room or the maximum is 0, else maximum + 1) is never in use and exceeds every number in use. |
| `Reports.OverlapCountsSharedNights` | main.py:324-329 | The overlap from the later start to the earlier end equals the number of nights, counted one by one, that lie both in the stay and in the window. |
| `Reports.SumRemove` | main.py:318 | The sum over the table does not depend on the order the rows are visited in. Any row can be taken out first. |
| `Reports.ContributionsRemove` | main.py:318-342 | Taking a booking out of the table takes exactly its entry out of the per-booking contributions, and leaves every other entry as it was. |
| `Reports.TallyOfRemove` | main.py:318-342 | The report sum is one booking's contribution plus the report sum of the other bookings, for any booking. |
| `Reports.AccumulateStep` | main.py:318-342 | One pass of the report loop keeps `running tally + contributions still to visit` equal to the contribution of the whole table. |
| `Reports.TallyOfEmpty` | main.py:310-315 | With no bookings, every counter keeps its initial zero. |
| `Reports.ContributionSplit` | main.py:325-338 | For one booking, occupied nights and revenue over `[s, e)` are the sums over `[s, m)` and `[m, e)`. |
| `Reports.TallySplit` | main.py:318-338 | Occupied nights and revenue of the whole table add up over adjacent windows. |
| `Reports.CancelledCountedIff` | main.py:328-342 | A booking adds 1 to `cancelled_bookings` exactly when it is Cancelled, its stay is non-empty, and its check-in lies in `[S, E)`; otherwise it adds 0. The inclusive end never matters. |
| `Reports.CompletedCountedIff` | main.py:328-334 | A booking adds 1 to `completed_bookings` exactly when it is CheckedOut and its stay shares a night with the window; otherwise it adds 0. |
| `Reports.CompletedCount` | main.py:318-334 | `completed_bookings` is the number of bookings in the table that are CheckedOut and share a night with the window. |
| `Reports.CancelledCount` | main.py:318-342 | `cancelled_bookings` is the number of bookings in the table that are Cancelled, have a non-empty stay, and check in within `[S, E)`. |
| `Manager.HotelManager.constructor` | main.py:12-18 | A manager over given room and booking tables. A store with no bookings, such as a fresh database holding only the sample rooms, starts out valid. |
| `Manager.HotelManager.AddRoom` | main.py:91-103 | Adds one Available room with the given type and rate under `NextRoomNumber`. Other rooms and all bookings are unchanged. |
| `Manager.HotelManager.UpdateRoomDetails` | main.py:105-112 | Overwrites type, rate and status of an existing room. An unknown number changes nothing. Always returns true. |
| `Manager.HotelManager.UpdateRoomStatus` | main.py:114-118 | Overwrites the status of an existing room. An unknown number changes nothing. Always returns true. |
| `Manager.HotelManager.AddBooking` | main.py:169-187 | Fails, in this order: empty or reversed dates, unknown room, room unavailable, id already in use. A failure changes nothing. On success it adds exactly one row with the given status (default Confirmed) and the room's current rate, and nothing else changes. An active new booking makes its stay unavailable. The call keeps the invariant. |
| `Manager.HotelManager.UpdateBooking` | main.py:221-258 | Fails, in this order: unknown booking, empty or reversed dates, unavailable with its own id ignored. A failure changes nothing. Any status is accepted. On success the rooms become `MoveRoomStatus` of the old ones. The row gets the new room, dates and status and the new room's rate (0 if unknown). The customer is kept. The call keeps the invariant. |
| `Manager.HotelManager.CheckIn` | main.py:280-287 | Succeeds exactly when the booking exists and is Confirmed. It then becomes CheckedIn and its room Occupied. Otherwise nothing changes. The call keeps the invariant. |
| `Manager.HotelManager.CheckOut` | main.py:289-296 | Succeeds exactly when the booking exists and is CheckedIn. It then becomes CheckedOut and its room Available. Otherwise nothing changes. The call keeps the invariant. |
| `Manager.HotelManager.CancelBooking` | main.py:298-304 | Succeeds exactly when the booking exists and is Confirmed. It then becomes Cancelled. Rooms never change. The call keeps the invariant. |
| `Manager.HotelManager.GetAvailableRooms` | main.py:210-219 | Returns exactly the rooms that exist, are not under Maintenance and are available for the stay, in strictly increasing room-number order. |
| `Manager.HotelManager.GetReports` | main.py:309-350 | Revenue, occupied nights, completed and cancelled counts equal the order-independent sum of each booking's contribution over the table. Total nights is the room count times the window length. |

## Left out

- The Streamlit user interface and display helpers (`display_rooms`, `display_bookings`, `main`): presentation driven by widgets.
- The SQLite plumbing (connection, table creation, `_is_db_populated`, commits, row mapping): the tables are maps and the `WHERE` clauses predicates. The constructor takes existing tables instead of opening and populating a database.
- Atomicity across separate commits (`check_in` commits the booking before the room status): the model is sequential, one writer.
- `_generate_id` and `_load_sample_data`: they use `random`. Booking ids are parameters. A collision, which makes the source's `INSERT` raise a primary-key error, is the failure `DuplicateBookingId` with nothing changed.
- Customer operations (`add_customer`, `update_customer`, `get_customer_name`, `customers`): plain record writes. `add_booking` does not check the customer, so no customer table is kept.
- `get_room_by_number`, `get_booking_by_id` and the `bookings` property: map lookups in the model.
- Date parsing and formatting (`strptime`, `isoformat`): dates are day numbers.
- Message texts: the model returns the failure reason only.
- `occupancy_rate` and floating-point money: the rate is a float division, left out. Rates and revenue are integer cents, so float rounding is not modelled.
- Status values outside the enumerations: statuses are datatypes, though `update_booking` and `update_room_details` would store any string the caller passes.
- Room numbers are natural numbers. The table orders its text key as text, which matches numeric order only for numbers of equal length (101 to 999 with the sample data).
- Manager.HotelManager.GetAvailableRooms: returns the room numbers rather than the full room rows. The rows are `rooms[n]` for each number.
