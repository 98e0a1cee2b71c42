/**
 * The `rooms` table: lookups, the status updates the booking operations
 * make as side effects, the listing order, and the number `add_room`
 * chooses.
 */
module RoomTable {
  import opened HotelTypes

  /**
   * `UPDATE rooms SET status = ? WHERE room_number = ?`: the row changes
   * status if there is one; an unknown number changes nothing.
   */
  function SetStatus(rooms: map<RoomNumber, Room>, number: RoomNumber, status: RoomStatus): map<RoomNumber, Room>
  {
    if number in rooms then rooms[number := rooms[number].(status := status)] else rooms
  }

  /** `get_room_price`: the room's current rate, or 0 for an unknown room. */
  function RoomPrice(rooms: map<RoomNumber, Room>, number: RoomNumber): Cents
  {
    if number in rooms then rooms[number].price else 0
  }

  /**
   * The room-status side effects of `update_booking`, in the source's order:
   * first release the old room if the booking was checked in, then claim
   * the new room if the booking becomes checked in. The net effect: the new
   * room ends Occupied when the new status is CheckedIn (even when it is the
   * old room, released a moment before), the old room ends Available when
   * the booking was checked in and is not claimed again, and no other row
   * and no other column changes.
   */
  function MoveRoomStatus(rooms: map<RoomNumber, Room>, oldRoom: RoomNumber, oldStatus: BookingStatus,
                          newRoom: RoomNumber, newStatus: BookingStatus): (after: map<RoomNumber, Room>)
    ensures after.Keys == rooms.Keys
    ensures forall n :: n in rooms ==>
      && after[n].kind == rooms[n].kind
      && after[n].price == rooms[n].price
      && after[n].status ==
           if n == newRoom && newStatus == CheckedIn then Occupied
           else if n == oldRoom && oldStatus == CheckedIn then Available
           else rooms[n].status
  {
    var released := if oldStatus == CheckedIn then SetStatus(rooms, oldRoom, Available) else rooms;
    if newStatus == CheckedIn then SetStatus(released, newRoom, Occupied) else released
  }

  /** `m` is the smallest number of `s`. */
  predicate IsLeast(m: RoomNumber, s: set<RoomNumber>)
  {
    m in s && forall x :: x in s ==> m <= x
  }

  /** `m` is the largest number of `s`. */
  predicate IsGreatest(m: RoomNumber, s: set<RoomNumber>)
  {
    m in s && forall x :: x in s ==> x <= m
  }

  /** The smallest number of a non-empty set of room numbers. */
  function MinNumber(s: set<RoomNumber>): (m: RoomNumber)
    requires s != {}
    ensures m in s && forall x :: x in s ==> m <= x
  {
    HasLeast(s);
    var m :| IsLeast(m, s); m
  }

  /** The largest number of a non-empty set of room numbers. */
  function MaxNumber(s: set<RoomNumber>): (m: RoomNumber)
    requires s != {}
    ensures m in s && forall x :: x in s ==> x <= m
  {
    HasGreatest(s);
    var m :| IsGreatest(m, s); m
  }

  lemma {:induction false} HasLeast(s: set<RoomNumber>)
    requires s != {}
    ensures exists m :: IsLeast(m, s)
  {
    var y :| y in s;
    var rest := s - {y};
    assert s == rest + {y};
    if rest == {} {
      assert IsLeast(y, s);
    } else {
      HasLeast(rest);
      var m :| IsLeast(m, rest);
      var bottom := if y < m then y else m;
      forall x | x in s
        ensures bottom <= x
      {
        if x != y {
          assert x in rest;
        }
      }
      assert IsLeast(bottom, s);
    }
  }

  lemma {:induction false} HasGreatest(s: set<RoomNumber>)
    requires s != {}
    ensures exists m :: IsGreatest(m, s)
  {
    var y :| y in s;
    var rest := s - {y};
    assert s == rest + {y};
    if rest == {} {
      assert IsGreatest(y, s);
    } else {
      HasGreatest(rest);
      var m :| IsGreatest(m, rest);
      var top := if y > m then y else m;
      forall x | x in s
        ensures x <= top
      {
        if x != y {
          assert x in rest;
        }
      }
      assert IsGreatest(top, s);
    }
  }

  /**
   * The `rooms` listing, `ORDER BY room_number`: every room number exactly
   * once, in increasing order.
   */
  function NumbersInOrder(numbers: set<RoomNumber>): (order: seq<RoomNumber>)
    ensures forall n :: n in order <==> n in numbers
    ensures forall a, b :: 0 <= a < b < |order| ==> order[a] < order[b]
    decreases numbers
  {
    if numbers == {} then []
    else
      var first := MinNumber(numbers);
      [first] + NumbersInOrder(numbers - {first})
  }

  /**
   * The number `add_room` gives a new room: one past the largest existing
   * number, or 101 when there is no room or the largest number is 0 (the
   * source tests the SQL `MAX` for truth). It is never a number in use and
   * exceeds every number in use.
   */
  function NextRoomNumber(numbers: set<RoomNumber>): (n: RoomNumber)
    ensures n !in numbers
    ensures forall x :: x in numbers ==> x < n
  {
    var maxRoom := if numbers == {} then None else Some(MaxNumber(numbers));
    if maxRoom.Some? && maxRoom.value != 0 then maxRoom.value + 1 else 101
  }
}
