/** The student's bookings page: two tabs, each listing the bookings whose
    status is the tab's value. */
module MyBookings {
  import Lists
  import opened DataContext

  const Upcoming := "upcoming"
  const Past := "past"

  /** `bookings.filter(b => b.status === filter)` */
  function ByStatus(bs: seq<Booking>, status: string): (r: seq<Booking>)
    ensures forall b :: b in r <==> b in bs && b.status == status
    ensures forall b :: multiset(r)[b] == if b.status == status then multiset(bs)[b] else 0
    ensures Lists.IsSubsequence(r, bs)
  {
    Lists.FilterMultiplicity((b: Booking) => b.status == status, bs);
    Lists.FilterIsSubsequence((b: Booking) => b.status == status, bs);
    Lists.Filter((b: Booking) => b.status == status, bs)
  }

  /** The tab state; the two buttons set it to one of the two values. */
  class BookingsView {
    var filter: string

    ghost predicate Valid()
      reads this
    {
      filter == Upcoming || filter == Past
    }

    constructor ()
      ensures Valid() && filter == Upcoming
    {
      filter := Upcoming;
    }

    method ShowUpcoming()
      modifies this
      ensures Valid() && filter == Upcoming
    {
      filter := Upcoming;
    }

    method ShowPast()
      modifies this
      ensures Valid() && filter == Past
    {
      filter := Past;
    }

    /** `filteredBookings` */
    function FilteredBookings(bs: seq<Booking>): (r: seq<Booking>)
      reads this
      requires Valid()
      ensures forall b :: b in r ==> b.status == Upcoming || b.status == Past
    {
      ByStatus(bs, filter)
    }
  }

  /** The bookings with any other status. */
  predicate IsOtherStatus(b: Booking)
  {
    b.status != Upcoming && b.status != Past
  }

  /** The two tabs and the bookings with another status split the list: every
      booking is counted in exactly one of the three. */
  lemma {:induction false} TabsPartition(bs: seq<Booking>)
    ensures |ByStatus(bs, Upcoming)| + |ByStatus(bs, Past)| + |Lists.Filter(IsOtherStatus, bs)| == |bs|
  {
    if bs != [] {
      TabsPartition(bs[1..]);
    }
  }

  /** No booking is in both tabs, a booking with one of the two statuses is
      in one of them, and a booking with another status is in neither. */
  lemma TabsCover(bs: seq<Booking>, b: Booking)
    requires b in bs
    ensures !(b in ByStatus(bs, Upcoming) && b in ByStatus(bs, Past))
    ensures b.status == Upcoming || b.status == Past ==> b in ByStatus(bs, Upcoming) || b in ByStatus(bs, Past)
    ensures IsOtherStatus(b) ==> b !in ByStatus(bs, Upcoming) && b !in ByStatus(bs, Past)
  {
  }

  /** A booking added by the store with no status of its own opens the
      upcoming tab and leaves the past tab as it was. */
  lemma NewBookingOnTop(bs: seq<Booking>, request: BookingRequest, now: int)
    requires request.status.None?
    ensures ByStatus([NewBooking(request, now)] + bs, Upcoming) == [NewBooking(request, now)] + ByStatus(bs, Upcoming)
    ensures ByStatus([NewBooking(request, now)] + bs, Past) == ByStatus(bs, Past)
  {
    assert ([NewBooking(request, now)] + bs)[1..] == bs;
  }
}
