/**
 * `BookingRepository`: the derived queries over the booking collection,
 * as filters of the map from id to booking.
 */
module BookingRepository {
  import opened Entities

  /**
   * The filter of `findOverlapping(barber, newEnd, newStart)`: same barber
   * name, the stored start before `newEnd` and the stored end after
   * `newStart`. Note the argument order (end before start) and that the
   * status is not consulted.
   */
  predicate OverlapsWindow(b: Booking, barber: string, newEnd: Timestamp, newStart: Timestamp) {
    b.barber == barber && b.startTime < newEnd && b.endTime > newStart
  }

  /** `findOverlapping(barber, newEnd, newStart)` */
  function FindOverlapping(bookings: map<Id, Booking>, barber: string, newEnd: Timestamp, newStart: Timestamp): (r: map<Id, Booking>)
    ensures forall id :: id in r <==> id in bookings && OverlapsWindow(bookings[id], barber, newEnd, newStart)
    ensures forall id :: id in r ==> r[id] == bookings[id]
  {
    map id | id in bookings && OverlapsWindow(bookings[id], barber, newEnd, newStart) :: bookings[id]
  }

  /** `findByBarber(barber)` */
  function FindByBarber(bookings: map<Id, Booking>, barber: string): (r: map<Id, Booking>)
    ensures forall id :: id in r <==> id in bookings && bookings[id].barber == barber
    ensures forall id :: id in r ==> r[id] == bookings[id]
  {
    map id | id in bookings && bookings[id].barber == barber :: bookings[id]
  }

  /** `findByClientName(clientName)` */
  function FindByClientName(bookings: map<Id, Booking>, clientName: string): (r: map<Id, Booking>)
    ensures forall id :: id in r <==> id in bookings && bookings[id].clientName == clientName
    ensures forall id :: id in r ==> r[id] == bookings[id]
  {
    map id | id in bookings && bookings[id].clientName == clientName :: bookings[id]
  }

  /** Two bookings of the same barber whose half-open intervals share a minute. */
  predicate Clash(a: Booking, b: Booking) {
    a.barber == b.barber && a.startTime < b.endTime && b.startTime < a.endTime
  }

  /**
   * Asking the query with a new booking's (end, start) finds exactly the
   * stored bookings that clash with it.
   */
  lemma QueryFindsClashes(stored: Booking, candidate: Booking)
    ensures OverlapsWindow(stored, candidate.barber, candidate.endTime, candidate.startTime) <==> Clash(stored, candidate)
  {
  }

  /** The clash relation does not depend on which booking came first. */
  lemma ClashSymmetric(a: Booking, b: Booking)
    ensures Clash(a, b) <==> Clash(b, a)
  {
  }

  /** Intervals are half-open: bookings that touch end to start do not clash. */
  lemma BackToBackDoNotClash(a: Booking, b: Booking)
    requires a.endTime == b.startTime || b.endTime == a.startTime
    requires a.startTime <= a.endTime && b.startTime <= b.endTime
    ensures !Clash(a, b)
  {
  }

  /** The status plays no part: a cancelled or completed booking still occupies its slot. */
  lemma StatusIgnored(bookings: map<Id, Booking>, id: Id, s: Status, barber: string, newEnd: Timestamp, newStart: Timestamp)
    requires id in bookings && OverlapsWindow(bookings[id], barber, newEnd, newStart)
    ensures id in FindOverlapping(bookings[id := bookings[id].(status := s)], barber, newEnd, newStart)
  {
  }
}
