/** The teacher dashboard: the teacher's upcoming bookings and the three
    statistic cards derived from them. */
module TeacherHome {
  import opened Wrappers
  import Lists
  import Text
  import opened DataContext

  /** The simulated logged-in teacher. */
  const CurrentTeacherId := 1
  /** The revenue the fold starts from. */
  const BaseRevenue := 850
  /** The student count shown before any booking. */
  const BaseStudents := 24

  predicate IsTeacherBooking(b: Booking)
  {
    b.teacherId == CurrentTeacherId && b.status == "upcoming"
  }

  /** `teacherBookings`: the upcoming bookings of teacher 1, in order. */
  function TeacherBookings(bs: seq<Booking>): (r: seq<Booking>)
    ensures forall b :: b in r <==> b in bs && b.teacherId == CurrentTeacherId && b.status == "upcoming"
    ensures forall b :: multiset(r)[b] == if IsTeacherBooking(b) then multiset(bs)[b] else 0
    ensures Lists.IsSubsequence(r, bs)
  {
    Lists.FilterMultiplicity(IsTeacherBooking, bs);
    Lists.FilterIsSubsequence(IsTeacherBooking, bs);
    Lists.Filter(IsTeacherBooking, bs)
  }

  /** `parseInt(price.replace(/[^0-9]/g, '')) || 0`: the number formed by
      all the digits of the price, in order, and 0 when it has none. */
  function ParsePrice(price: string): (r: int)
    ensures r == Text.Value(Text.KeepDigits(price), false)
    ensures Text.KeepDigits(price) == [] ==> r == 0
  {
    var digits := Text.KeepDigits(price);
    Text.ParseIntOfDigits(digits);
    var parsed := Text.ParseInt(digits);
    if parsed.Some? && parsed.value != 0 then parsed.value else 0
  }

  /** A price written as a digit-free prefix followed by a number, such as
      "CHF 30", counts as that number. */
  lemma ParsePricePrefixed(prefix: string, n: nat)
    requires forall c :: c in prefix ==> !Text.IsDigit(c)
    ensures ParsePrice(prefix + Text.NatToString(n)) == n
  {
    var digits := Text.NatToString(n);
    Lists.FilterConcat(Text.IsDigit, prefix, digits);
    Lists.FilterKeepsNone(Text.IsDigit, prefix);
    Lists.FilterKeepsAll(Text.IsDigit, digits);
    assert Text.KeepDigits(prefix + digits) == digits;
  }

  /** The price a booking contributes. */
  function BookingPrice(b: Booking): int
  {
    ParsePrice(b.price)
  }

  /** Revenue: the `reduce` fold over the teacher's upcoming bookings,
      starting from 850; it is 850 plus their summed prices. */
  function Revenue(bs: seq<Booking>): (r: int)
    ensures r == BaseRevenue + Lists.Sum(BookingPrice, TeacherBookings(bs))
  {
    Lists.FoldAddIsSum(BookingPrice, BaseRevenue, TeacherBookings(bs));
    Lists.FoldAdd(BookingPrice, BaseRevenue, TeacherBookings(bs))
  }

  /** A booking added in front raises the revenue by its price exactly when it
      is an upcoming booking of teacher 1, and leaves it alone otherwise. */
  lemma RevenueOfNewBooking(b: Booking, bs: seq<Booking>)
    ensures Revenue([b] + bs) == Revenue(bs) + (if IsTeacherBooking(b) then BookingPrice(b) else 0)
  {
    assert ([b] + bs)[1..] == bs;
  }

  /** `new Set(bookings.map(b => b.id))` */
  function IdSet(bs: seq<Booking>): (ids: set<int>)
    ensures forall i :: 0 <= i < |bs| ==> bs[i].id in ids
    ensures forall id :: id in ids ==> exists i :: 0 <= i < |bs| && bs[i].id == id
  {
    set b | b in bs :: b.id
  }

  /** There are never more distinct ids than bookings. */
  lemma {:induction false} IdSetBound(bs: seq<Booking>)
    ensures |IdSet(bs)| <= |bs|
  {
    if bs != [] {
      IdSetBound(bs[1..]);
      assert IdSet(bs) == {bs[0].id} + IdSet(bs[1..]);
    }
  }

  /** The "Élèves" figure: distinct booking ids among the teacher's bookings. */
  function UniqueStudents(bs: seq<Booking>): (n: nat)
    ensures n <= |TeacherBookings(bs)|
  {
    IdSetBound(TeacherBookings(bs));
    |IdSet(TeacherBookings(bs))|
  }

  datatype StatCard = StatCard(caption: string, value: string, trend: string)

  const StudentsCaption := "Élèves"
  const UpcomingCaption := "Cours à venir"
  const RevenueCaption := "Revenus"
  const StableTrend := "Stable"

  /** The students card: 24 plus the distinct ids, with trend "+n" or "Stable". */
  function StudentsCard(bs: seq<Booking>): (card: StatCard)
    ensures card.caption == StudentsCaption
    ensures card.trend == StableTrend <==> UniqueStudents(bs) == 0
  {
    var n := UniqueStudents(bs);
    var trend := if n > 0 then "+" + Text.NatToString(n) else StableTrend;
    assert n > 0 ==> trend[0] != StableTrend[0];
    StatCard(StudentsCaption, Text.NatToString(BaseStudents + n), trend)
  }

  /** The three cards: students, upcoming classes and revenue. */
  function Stats(bs: seq<Booking>): (cards: seq<StatCard>)
    ensures |cards| == 3
    ensures cards[0].caption == StudentsCaption && cards[1].caption == UpcomingCaption
            && cards[2].caption == RevenueCaption
  {
    [ StudentsCard(bs),
      StatCard(UpcomingCaption, Text.NatToString(|TeacherBookings(bs)|), "Actifs"),
      StatCard(RevenueCaption, "CHF " + Text.IntToString(Revenue(bs)), "+24%") ]
  }

  /** The students card reads back as 24 plus the number of distinct ids;
      its trend is "Stable" exactly when there are none, and otherwise "+"
      followed by their number. */
  lemma StudentsCardShows(bs: seq<Booking>)
    ensures var card := StudentsCard(bs); var n := UniqueStudents(bs);
      && Text.ParseInt(card.value) == Some(BaseStudents + n)
      && (card.trend == StableTrend <==> n == 0)
      && (n > 0 ==> card.trend[0] == '+' && Text.ParseInt(card.trend[1..]) == Some(n))
  {
    var card := StudentsCard(bs);
    var n := UniqueStudents(bs);
    Text.ParseIntRoundTrip(BaseStudents + n);
    if n > 0 {
      Text.ParseIntRoundTrip(n);
      assert card.trend[1..] == Text.NatToString(n);
      assert card.trend[0] != StableTrend[0];
    }
  }

  /** The upcoming card reads back as the number of the teacher's upcoming
      bookings, and the revenue card shows 850 plus their summed prices. */
  lemma StatsShow(bs: seq<Booking>)
    ensures |Stats(bs)| == 3 && Stats(bs)[0] == StudentsCard(bs)
    ensures Text.ParseInt(Stats(bs)[1].value) == Some(|TeacherBookings(bs)|)
    ensures Stats(bs)[2].value == "CHF " + Text.IntToString(BaseRevenue + Lists.Sum(BookingPrice, TeacherBookings(bs)))
  {
    Text.ParseIntRoundTrip(|TeacherBookings(bs)|);
  }
}
