/**
 * The counting part of `get_reports`: for a window of days [start, end),
 * each booking contributes the nights its stay shares with the window, and
 * the report sums those contributions over the whole booking table.
 */
module Reports {
  import opened HotelTypes
  import opened Availability

  /** The report's counters, except the floating-point occupancy rate. */
  datatype Report = Report(
    totalRevenue: Cents,
    occupiedNights: int,
    completedBookings: int,
    cancelledBookings: int,
    totalNights: int)

  /** The part of the report that the loop over the bookings accumulates. */
  datatype Tally = Tally(revenue: Cents, occupiedNights: int, completed: int, cancelled: int)

  const Zero := Tally(0, 0, 0, 0)

  function Plus(a: Tally, b: Tally): Tally
  {
    Tally(a.revenue + b.revenue, a.occupiedNights + b.occupiedNights, a.completed + b.completed, a.cancelled + b.cancelled)
  }

  function Max(a: int, b: int): int { if a < b then b else a }

  function Min(a: int, b: int): int { if a < b then a else b }

  /**
   * The nights of the stay of `b` inside [start, end): the overlap runs from
   * the later of the two starts to the earlier of the two ends, and counts
   * only when it is not empty.
   */
  function OverlapNights(b: Booking, start: Day, end: Day): (nights: nat)
  {
    var lo := Max(b.checkIn, start);
    var hi := Min(b.checkOut, end);
    if lo < hi then hi - lo else 0
  }

  /** What one booking adds to the report: one pass of the loop body. */
  function Contribution(b: Booking, start: Day, end: Day): Tally
  {
    var nights := OverlapNights(b, start, end);
    if nights == 0 then Zero
    else
      Tally(
        if b.status == CheckedOut then nights * b.pricePerNight else 0,
        if b.status == Confirmed || b.status == CheckedIn || b.status == CheckedOut then nights else 0,
        if b.status == CheckedOut then 1 else 0,
        if b.status == Cancelled && start <= b.checkIn && b.checkIn <= end then 1 else 0)
  }

  /** What each booking of the table contributes, by booking id. */
  function Contributions(bookings: map<BookingId, Booking>, start: Day, end: Day): map<BookingId, Tally>
  {
    map id | id in bookings :: Contribution(bookings[id], start, end)
  }

  /** The sum of a table of tallies, taken in no particular order. */
  ghost function Sum(parts: map<BookingId, Tally>): Tally
    decreases parts.Keys
  {
    if parts.Keys == {} then Zero
    else
      var id :| id in parts;
      Plus(parts[id], Sum(parts - {id}))
  }

  /** The contributions of all bookings to the report over [start, end). */
  ghost function TallyOf(bookings: map<BookingId, Booking>, start: Day, end: Day): Tally
  {
    Sum(Contributions(bookings, start, end))
  }

  /** The report over a booking table and a number of rooms. */
  ghost function ReportOf(bookings: map<BookingId, Booking>, roomCount: nat, start: Day, end: Day): Report
  {
    var t := TallyOf(bookings, start, end);
    Report(t.revenue, t.occupiedNights, t.completed, t.cancelled, roomCount * (end - start))
  }

  /**
   * A sum does not depend on the order its parts are visited in: any part
   * can be taken out first.
   */
  lemma {:induction false} SumRemove(parts: map<BookingId, Tally>, id: BookingId)
    requires id in parts
    ensures Sum(parts) == Plus(parts[id], Sum(parts - {id}))
    decreases parts.Keys
  {
    var j :| j in parts && Sum(parts) == Plus(parts[j], Sum(parts - {j}));
    if j != id {
      var withoutJ := parts - {j};
      var withoutId := parts - {id};
      var rest := withoutJ - {id};
      assert withoutId - {j} == rest;
      SumRemove(withoutJ, id);
      SumRemove(withoutId, j);
      var r := Sum(rest);
      calc {
        Sum(parts);
        Plus(parts[j], Sum(withoutJ));
        Plus(parts[j], Plus(parts[id], r));
        Plus(parts[id], Plus(parts[j], r));
        Plus(parts[id], Sum(withoutId));
      }
    }
  }

  /** The contributions of a table without one booking are the table's, without that booking. */
  lemma ContributionsRemove(bookings: map<BookingId, Booking>, id: BookingId, start: Day, end: Day)
    ensures Contributions(bookings - {id}, start, end) == Contributions(bookings, start, end) - {id}
  {
    var parts := Contributions(bookings, start, end);
    var others := Contributions(bookings - {id}, start, end);
    assert (parts - {id}).Keys == others.Keys;
    forall k | k in others
      ensures (parts - {id})[k] == others[k]
    {
      assert others[k] == Contribution(bookings[k], start, end);
    }
  }

  /** Taking one booking out of the table takes its contribution out of the report. */
  lemma TallyOfRemove(bookings: map<BookingId, Booking>, id: BookingId, start: Day, end: Day)
    requires id in bookings
    ensures TallyOf(bookings, start, end)
         == Plus(Contribution(bookings[id], start, end), TallyOf(bookings - {id}, start, end))
  {
    var parts := Contributions(bookings, start, end);
    SumRemove(parts, id);
    ContributionsRemove(bookings, id, start, end);
  }

  /** The nights of [from, end) that also lie in the stay of `b`, counted one by one. */
  function SharedNights(b: Booking, from: Day, end: Day): nat
    decreases end - from
  {
    if from >= end then 0
    else (if Covers(b.checkIn, b.checkOut, from) then 1 else 0) + SharedNights(b, from + 1, end)
  }

  /**
   * The overlap computed from the later start and the earlier end is the
   * number of nights that lie both in the stay and in the window.
   */
  lemma {:induction false} OverlapCountsSharedNights(b: Booking, start: Day, end: Day)
    ensures OverlapNights(b, start, end) == SharedNights(b, start, end)
    decreases end - start
  {
    if start < end {
      OverlapCountsSharedNights(b, start + 1, end);
    }
  }

  /** An empty table contributes nothing. */
  lemma TallyOfEmpty(bookings: map<BookingId, Booking>, start: Day, end: Day)
    requires bookings.Keys == {}
    ensures TallyOf(bookings, start, end) == Zero
  {
    assert Contributions(bookings, start, end).Keys == {};
  }

  /**
   * One step of the report loop: adding a booking's contribution to the
   * running tally and taking the booking out of the rest keeps the final
   * sum.
   */
  lemma AccumulateStep(tally: Tally, rest: map<BookingId, Booking>, id: BookingId, start: Day, end: Day)
    requires id in rest
    ensures Plus(Plus(tally, Contribution(rest[id], start, end)), TallyOf(rest - {id}, start, end))
         == Plus(tally, TallyOf(rest, start, end))
  {
    TallyOfRemove(rest, id, start, end);
    PlusAssociative(tally, Contribution(rest[id], start, end), TallyOf(rest - {id}, start, end));
  }

  lemma PlusZero(t: Tally)
    ensures Plus(t, Zero) == t
  {
  }

  lemma PlusAssociative(a: Tally, b: Tally, c: Tally)
    ensures Plus(Plus(a, b), c) == Plus(a, Plus(b, c))
  {
  }

  /**
   * Cutting the window in two at `mid` cuts every stay's nights in two:
   * occupied nights and revenue are additive over adjacent windows.
   */
  lemma ContributionSplit(b: Booking, start: Day, mid: Day, end: Day)
    requires start <= mid <= end
    ensures Contribution(b, start, end).occupiedNights
         == Contribution(b, start, mid).occupiedNights + Contribution(b, mid, end).occupiedNights
    ensures Contribution(b, start, end).revenue
         == Contribution(b, start, mid).revenue + Contribution(b, mid, end).revenue
  {
    var whole := OverlapNights(b, start, end);
    var left := OverlapNights(b, start, mid);
    var right := OverlapNights(b, mid, end);
    assert whole == left + right;
    assert whole * b.pricePerNight == left * b.pricePerNight + right * b.pricePerNight;
  }

  /** Occupied nights and revenue of the whole table are additive over adjacent windows. */
  lemma {:induction false} TallySplit(bookings: map<BookingId, Booking>, start: Day, mid: Day, end: Day)
    requires start <= mid <= end
    ensures TallyOf(bookings, start, end).occupiedNights
         == TallyOf(bookings, start, mid).occupiedNights + TallyOf(bookings, mid, end).occupiedNights
    ensures TallyOf(bookings, start, end).revenue
         == TallyOf(bookings, start, mid).revenue + TallyOf(bookings, mid, end).revenue
    decreases bookings.Keys
  {
    if bookings.Keys != {} {
      var id :| id in bookings;
      TallyOfRemove(bookings, id, start, end);
      TallyOfRemove(bookings, id, start, mid);
      TallyOfRemove(bookings, id, mid, end);
      ContributionSplit(bookings[id], start, mid, end);
      TallySplit(bookings - {id}, start, mid, end);
    }
  }

  /** A checked-out booking whose stay shares a night with [start, end). */
  predicate CompletedIn(b: Booking, start: Day, end: Day)
  {
    b.status == CheckedOut && b.checkOut > start && b.checkIn < end && b.checkIn < b.checkOut && start < end
  }

  /** A cancelled booking with a non-empty stay whose check-in day lies in [start, end). */
  predicate CancelledIn(b: Booking, start: Day, end: Day)
  {
    b.status == Cancelled && start <= b.checkIn < end && b.checkIn < b.checkOut
  }

  /**
   * A cancelled booking is counted exactly when its check-in day lies in
   * [start, end) and its stay is not empty: the positive-overlap test comes
   * first, so the inclusive `b_in <= end_date` never admits check-in on `end`.
   */
  lemma CancelledCountedIff(b: Booking, start: Day, end: Day)
    ensures Contribution(b, start, end).cancelled == 1 <==> CancelledIn(b, start, end)
    ensures Contribution(b, start, end).cancelled == (if CancelledIn(b, start, end) then 1 else 0)
  {
  }

  /**
   * A checked-out booking counts as completed exactly when its stay shares a
   * night with the window; other bookings never do.
   */
  lemma CompletedCountedIff(b: Booking, start: Day, end: Day)
    ensures Contribution(b, start, end).completed == 1 <==> CompletedIn(b, start, end)
    ensures Contribution(b, start, end).completed == (if CompletedIn(b, start, end) then 1 else 0)
  {
  }

  /** `completed_bookings` is the number of bookings completed in the window. */
  lemma {:induction false} CompletedCount(bookings: map<BookingId, Booking>, start: Day, end: Day)
    ensures TallyOf(bookings, start, end).completed
         == |set id | id in bookings && CompletedIn(bookings[id], start, end)|
    decreases bookings.Keys
  {
    var counted := set id | id in bookings && CompletedIn(bookings[id], start, end);
    if bookings.Keys == {} {
      TallyOfEmpty(bookings, start, end);
      assert counted == {};
    } else {
      var id :| id in bookings;
      var others := bookings - {id};
      var rest := set j | j in others && CompletedIn(others[j], start, end);
      TallyOfRemove(bookings, id, start, end);
      CompletedCountedIff(bookings[id], start, end);
      CompletedCount(others, start, end);
      if CompletedIn(bookings[id], start, end) {
        assert counted == rest + {id};
      } else {
        assert counted == rest;
      }
    }
  }

  /** `cancelled_bookings` is the number of bookings cancelled in the window. */
  lemma {:induction false} CancelledCount(bookings: map<BookingId, Booking>, start: Day, end: Day)
    ensures TallyOf(bookings, start, end).cancelled
         == |set id | id in bookings && CancelledIn(bookings[id], start, end)|
    decreases bookings.Keys
  {
    var counted := set id | id in bookings && CancelledIn(bookings[id], start, end);
    if bookings.Keys == {} {
      TallyOfEmpty(bookings, start, end);
      assert counted == {};
    } else {
      var id :| id in bookings;
      var others := bookings - {id};
      var rest := set j | j in others && CancelledIn(others[j], start, end);
      TallyOfRemove(bookings, id, start, end);
      CancelledCountedIff(bookings[id], start, end);
      CancelledCount(others, start, end);
      if CancelledIn(bookings[id], start, end) {
        assert counted == rest + {id};
      } else {
        assert counted == rest;
      }
    }
  }
}
