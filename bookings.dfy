/**
  The Bookings page (src/pages/BookingsPage.jsx): the list of bookings fetched from
  the server, its case-insensitive search filter, the local patch after a status
  update, the fare shown for each booking, the stat counts and the driver search.
 */
module Bookings {
  import opened Collections
  import opened Text

  /**
    One booking as the server sends it. Optional fields are `None` when the property
    is missing or null.
   */
  datatype Booking = Booking(
    id: string,
    customerName: string,
    phone: string,
    pickup: string,
    drop: string,
    driverName: Option<string>,
    status: string,
    rideType: string,
    fare: Option<int>,
    passengers: Option<int>)

  /** JavaScript truthiness of an optional string: present and not empty. */
  predicate Truthy(s: Option<string>)
  {
    s.Some? && s.value != ""
  }

  /** The search test for one booking, with `q` already lower-cased. */
  predicate Matches(q: string, b: Booking)
  {
    || Includes(LowerCase(b.customerName), q)
    || Includes(LowerCase(b.phone), q)
    || Includes(LowerCase(b.pickup), q)
    || Includes(LowerCase(b.drop), q)
    || (Truthy(b.driverName) && Includes(LowerCase(b.driverName.value), q))
  }

  function Matcher(q: string): Booking -> bool
  {
    b => Matches(q, b)
  }

  /**
    The filter effect: the bookings whose customer name, phone, pickup or drop (or
    driver, when there is one) contains the search text, ignoring case, in list order.
   */
  function FilterBookings(bs: seq<Booking>, searchQuery: string): (r: seq<Booking>)
    ensures forall b :: b in r <==> b in bs && Matches(LowerCase(searchQuery), b)
    ensures forall b :: multiset(r)[b] == if Matches(LowerCase(searchQuery), b) then multiset(bs)[b] else 0
    ensures IsSubsequence(r, bs)
  {
    KeepIsSubsequence(bs, Matcher(LowerCase(searchQuery)));
    Keep(bs, Matcher(LowerCase(searchQuery)))
  }

  /** An empty search shows every booking. */
  lemma EmptyQueryKeepsAll(bs: seq<Booking>)
    ensures FilterBookings(bs, "") == bs
  {
    assert LowerCase("") == "";
    forall i | 0 <= i < |bs| ensures Matcher("")(bs[i]) {
      IncludesEmpty(LowerCase(bs[i].customerName));
    }
    KeepAll(bs, Matcher(""));
  }

  /** Searching the search result again with the same text changes nothing. */
  lemma FilterIdempotent(bs: seq<Booking>, searchQuery: string)
    ensures FilterBookings(FilterBookings(bs, searchQuery), searchQuery) == FilterBookings(bs, searchQuery)
  {
    KeepIdempotent(bs, Matcher(LowerCase(searchQuery)));
  }

  /** The booking as the local patch leaves it: new status, driver replaced only by a truthy name. */
  function Patched(b: Booking, newStatus: string, driverName: Option<string>): Booking
  {
    b.(status := newStatus, driverName := if Truthy(driverName) then driverName else b.driverName)
  }

  /** `setBookings(prev => prev.map(...))` after a successful PUT. */
  function ApplyStatusUpdate(bs: seq<Booking>, id: string, newStatus: string, driverName: Option<string>)
    : (r: seq<Booking>)
    ensures |r| == |bs|
    ensures forall i :: 0 <= i < |bs| && bs[i].id != id ==> r[i] == bs[i]
    ensures forall i :: 0 <= i < |bs| && bs[i].id == id ==>
      && r[i].status == newStatus
      && r[i].driverName == (if Truthy(driverName) then driverName else bs[i].driverName)
      && r[i] == bs[i].(status := r[i].status, driverName := r[i].driverName)
  {
    seq(|bs|, i requires 0 <= i < |bs| => if bs[i].id == id then Patched(bs[i], newStatus, driverName) else bs[i])
  }

  /** The update never changes which bookings are in the list, only their status and driver. */
  lemma UpdateKeepsIds(bs: seq<Booking>, id: string, newStatus: string, driverName: Option<string>)
    ensures forall i :: 0 <= i < |bs| ==> ApplyStatusUpdate(bs, id, newStatus, driverName)[i].id == bs[i].id
  {
  }

  /** Applying the same update twice is the same as applying it once. */
  lemma UpdateIdempotent(bs: seq<Booking>, id: string, newStatus: string, driverName: Option<string>)
    ensures var once := ApplyStatusUpdate(bs, id, newStatus, driverName);
            ApplyStatusUpdate(once, id, newStatus, driverName) == once
  {
  }

  /** Reject: the booking becomes "Cancelled" and keeps whatever driver it had. */
  lemma RejectKeepsDriver(bs: seq<Booking>, id: string, i: nat)
    requires i < |bs| && bs[i].id == id
    ensures ApplyStatusUpdate(bs, id, "Cancelled", None)[i] == bs[i].(status := "Cancelled")
  {
  }

  /** The drivers the allocation modal offers. */
  datatype Driver = Driver(id: nat, name: string)

  const Drivers := [
    Driver(1, "Ramesh"),
    Driver(2, "Suresh"),
    Driver(3, "Amit"),
    Driver(4, "Deepak"),
    Driver(5, "Vijay"),
    Driver(6, "Arjun")
  ]

  /** Allocate: the booking becomes "Confirmed" with the chosen driver. */
  lemma AllocateSetsDriver(bs: seq<Booking>, id: string, i: nat, d: Driver)
    requires i < |bs| && bs[i].id == id && d in Drivers
    ensures ApplyStatusUpdate(bs, id, "Confirmed", Some(d.name))[i]
      == bs[i].(status := "Confirmed", driverName := Some(d.name))
  {
  }

  /** The driver search, with `q` already lower-cased. */
  function NameMatcher(q: string): Driver -> bool
  {
    (d: Driver) => Includes(LowerCase(d.name), q)
  }

  /** `filteredDrivers`: the drivers whose name contains the search text, ignoring case. */
  function FilteredDrivers(driverSearch: string): (r: seq<Driver>)
    ensures forall d :: d in r <==> d in Drivers && Includes(LowerCase(d.name), LowerCase(driverSearch))
    ensures IsSubsequence(r, Drivers)
  {
    KeepIsSubsequence(Drivers, NameMatcher(LowerCase(driverSearch)));
    Keep(Drivers, NameMatcher(LowerCase(driverSearch)))
  }

  lemma EmptySearchKeepsAllDrivers()
    ensures FilteredDrivers("") == Drivers
  {
    assert LowerCase("") == "";
    forall i | 0 <= i < |Drivers| ensures NameMatcher("")(Drivers[i]) {
      IncludesEmpty(LowerCase(Drivers[i].name));
    }
    KeepAll(Drivers, NameMatcher(""));
  }

  /** What `computeFareDetails` returns: per-seat data for shared rides, a plain total otherwise. */
  datatype FareDetails =
    | SharedFare(perSeat: int, total: int, passengers: Option<int>)
    | ExclusiveFare(total: int)

  /** `fare || 0`: a missing fare counts as zero. */
  function FareOrZero(fare: Option<int>): int
  {
    if fare.Some? then fare.value else 0
  }

  /** `passengers || 1`: a missing or zero passenger count counts as one seat. */
  function SeatsOrOne(passengers: Option<int>): int
  {
    if passengers.Some? && passengers.value != 0 then passengers.value else 1
  }

  function ComputeFareDetails(b: Booking): (fd: FareDetails)
    ensures fd.SharedFare? <==> b.rideType == "Shared"
    ensures fd.SharedFare? ==>
      && fd.perSeat == FareOrZero(b.fare)
      && fd.total == fd.perSeat * SeatsOrOne(b.passengers)
      && fd.passengers == b.passengers
    ensures fd.ExclusiveFare? ==> fd.total == FareOrZero(b.fare)
  {
    if b.rideType == "Shared" then
      var perSeat := FareOrZero(b.fare);
      SharedFare(perSeat, perSeat * SeatsOrOne(b.passengers), b.passengers)
    else
      ExclusiveFare(FareOrZero(b.fare))
  }

  /**
    The fare field means a total for an exclusive ride and a per-seat price for a shared
    one; the two readings give the same total exactly when a single seat is charged.
   */
  lemma SharedSingleSeatCostsTheFare(b: Booking)
    requires b.rideType == "Shared" && FareOrZero(b.fare) != 0
    ensures ComputeFareDetails(b).total == ComputeFareDetails(b.(rideType := "Exclusive")).total
        <==> SeatsOrOne(b.passengers) == 1
  {
  }

  /** With a non-negative price and a positive seat count, the total covers at least one seat. */
  lemma SharedTotalCoversOneSeat(b: Booking)
    requires b.rideType == "Shared" && FareOrZero(b.fare) >= 0
    requires b.passengers.None? || b.passengers.value >= 0
    ensures ComputeFareDetails(b).total >= ComputeFareDetails(b).perSeat >= 0
  {
  }

  /** An exclusive booking with fare 3500 is charged 3500 in total. */
  lemma ExclusiveBookingExample()
    ensures ComputeFareDetails(Booking("BK001", "", "", "", "", None, "Pending", "Exclusive", Some(3500), None))
      == ExclusiveFare(3500)
  {
  }

  /** A shared booking at 2300 a seat for two passengers is charged 4600. */
  lemma SharedBookingExample()
    ensures ComputeFareDetails(Booking("BK002", "", "", "", "", None, "Pending", "Shared", Some(2300), Some(2)))
      == SharedFare(2300, 4600, Some(2))
  {
  }

  /** What `formatRupee` shows: a dash for zero and for NaN, otherwise the amount. */
  datatype Shown = Dash | Rupees(amount: int)

  function FormatRupee(v: JsNumber): (r: Shown)
    ensures r == Dash <==> v == NaN || v == Num(0)
    ensures r.Rupees? ==> v == Num(r.amount)
  {
    if v.NaN? || v.value == 0 then Dash else Rupees(v.value)
  }

  /**
    The total in the booking-details modal as written: `fare * passengers` with no
    defaults, so a missing fare or passenger count makes the product NaN.
   */
  function DetailTotalAsWritten(b: Booking): (r: JsNumber)
    ensures r.Num? <==> b.fare.Some? && b.passengers.Some?
    ensures b.fare.Some? && b.passengers.Some? ==> r == Num(b.fare.value * b.passengers.value)
  {
    if b.fare.Some? && b.passengers.Some? then Num(b.fare.value * b.passengers.value) else NaN
  }

  /** The total the modal evidently means to show: the same one the list shows. */
  function DetailTotal(b: Booking): (r: JsNumber)
    requires b.rideType == "Shared"
    ensures r == Num(ComputeFareDetails(b).total)
    ensures b.fare.Some? && b.passengers.Some? && b.passengers.value != 0 ==> r == DetailTotalAsWritten(b)
  {
    Num(FareOrZero(b.fare) * SeatsOrOne(b.passengers))
  }

  /**
    A shared booking with a fare and no passenger count: the list shows the fare as the
    total, the details modal shows a dash.
   */
  lemma DetailTotalDisagreesWithList()
    ensures var b := Booking("BK003", "", "", "", "", None, "Pending", "Shared", Some(1200), None);
      && FormatRupee(Num(ComputeFareDetails(b).total)) == Rupees(1200)
      && FormatRupee(DetailTotalAsWritten(b)) == Dash
      && FormatRupee(DetailTotal(b)) == Rupees(1200)
  {
  }

  function HasStatus(status: string): Booking -> bool
  {
    (b: Booking) => b.status == status
  }

  /** The status of each booking, in list order. */
  function Statuses(bs: seq<Booking>): (r: seq<string>)
    ensures |r| == |bs|
    ensures forall i :: 0 <= i < |bs| ==> r[i] == bs[i].status
  {
    seq(|bs|, i requires 0 <= i < |bs| => bs[i].status)
  }

  /** The bookings the status filter keeps are as many as the occurrences of that status. */
  lemma {:induction false} KeptCountIsMultiplicity(bs: seq<Booking>, status: string)
    ensures |Keep(bs, HasStatus(status))| == multiset(Statuses(bs))[status]
  {
    if bs != [] {
      KeptCountIsMultiplicity(bs[1..], status);
      assert Statuses(bs) == [bs[0].status] + Statuses(bs[1..]);
    }
  }

  /** When every booking has the status, the status filter keeps them all. */
  lemma AllWithStatusAreKept(bs: seq<Booking>, status: string)
    ensures (forall i :: 0 <= i < |bs| ==> bs[i].status == status) ==> Keep(bs, HasStatus(status)) == bs
  {
    if forall i :: 0 <= i < |bs| ==> bs[i].status == status {
      KeepAll(bs, HasStatus(status));
    }
  }

  /** `filteredBookings.filter(b => b.status === status).length`. */
  function CountStatus(bs: seq<Booking>, status: string): (n: nat)
    ensures n == multiset(Statuses(bs))[status]
    ensures n <= |bs|
    ensures n == |bs| <== forall i :: 0 <= i < |bs| ==> bs[i].status == status
  {
    KeptCountIsMultiplicity(bs, status);
    AllWithStatusAreKept(bs, status);
    |Keep(bs, HasStatus(status))|
  }

  /** The Pending and Confirmed cards together never count more than the Total card. */
  lemma PendingPlusConfirmedAtMostTotal(bs: seq<Booking>)
    ensures CountStatus(bs, "Pending") + CountStatus(bs, "Confirmed") <= |bs|
  {
    KeepDisjoint(bs, HasStatus("Pending"), HasStatus("Confirmed"));
  }

  /** The list state of the page. */
  class BookingList {
    var bookings: seq<Booking>
    /** The filter effect's output (`filteredBookings`). */
    var filtered: seq<Booking>
    /** The search text, a property of the page. */
    var searchQuery: string
    var loading: bool
    /** The booking whose driver modal is open (`driverModal`). */
    var driverModal: Option<Booking>
    var driverSearch: string

    /** The shown list is always the search result over the fetched list. */
    ghost predicate Valid()
      reads this
    {
      filtered == FilterBookings(bookings, searchQuery)
    }

    constructor (searchQuery: string)
      ensures Valid()
      ensures this.searchQuery == searchQuery && bookings == [] && filtered == []
      ensures loading && driverModal == None && driverSearch == ""
    {
      this.searchQuery := searchQuery;
      bookings := [];
      filtered := [];
      loading := true;
      driverModal := None;
      driverSearch := "";
    }

    /** `fetchBookings` finishing: the data replaces the list, or a failure leaves it; loading ends either way. */
    method FetchCompleted(data: Option<seq<Booking>>)
      requires Valid()
      modifies this
      ensures Valid()
      ensures bookings == (if data.Some? then data.value else old(bookings))
      ensures !loading && searchQuery == old(searchQuery)
      ensures driverModal == old(driverModal) && driverSearch == old(driverSearch)
    {
      if data.Some? {
        bookings := data.value;
      }
      loading := false;
      filtered := FilterBookings(bookings, searchQuery);
    }

    /** A new search text from the header; the filter effect runs again. */
    method SetSearchQuery(q: string)
      requires Valid()
      modifies this
      ensures Valid()
      ensures searchQuery == q && bookings == old(bookings) && loading == old(loading)
      ensures driverModal == old(driverModal) && driverSearch == old(driverSearch)
    {
      searchQuery := q;
      filtered := FilterBookings(bookings, searchQuery);
    }

    method OpenDriverModal(b: Booking)
      modifies this`driverModal
      ensures driverModal == Some(b)
    {
      driverModal := Some(b);
    }

    method CloseDriverModal()
      modifies this`driverModal
      ensures driverModal == None
    {
      driverModal := None;
    }

    method SetDriverSearch(text: string)
      modifies this`driverSearch
      ensures driverSearch == text
    {
      driverSearch := text;
    }

    /**
      `handleStatusUpdate`: when the PUT succeeds the booking is patched and the modal
      closes; when it throws, nothing changes.
     */
    method HandleStatusUpdate(id: string, newStatus: string, driverName: Option<string>, putSucceeded: bool)
      requires Valid()
      modifies this
      ensures Valid()
      ensures putSucceeded ==>
        bookings == ApplyStatusUpdate(old(bookings), id, newStatus, driverName) && driverModal == None
      ensures !putSucceeded ==> bookings == old(bookings) && driverModal == old(driverModal)
      ensures |bookings| == |old(bookings)|
      ensures searchQuery == old(searchQuery) && loading == old(loading) && driverSearch == old(driverSearch)
    {
      if putSucceeded {
        bookings := ApplyStatusUpdate(bookings, id, newStatus, driverName);
        filtered := FilterBookings(bookings, searchQuery);
        driverModal := None;
      }
    }

    /** The Reject button of a pending booking. */
    method Reject(id: string, putSucceeded: bool)
      requires Valid()
      modifies this
      ensures Valid()
      ensures putSucceeded ==>
        bookings == ApplyStatusUpdate(old(bookings), id, "Cancelled", None) && driverModal == None
      ensures !putSucceeded ==> bookings == old(bookings) && driverModal == old(driverModal)
      ensures searchQuery == old(searchQuery) && loading == old(loading) && driverSearch == old(driverSearch)
    {
      HandleStatusUpdate(id, "Cancelled", None, putSucceeded);
    }

    /** Picking a driver in the open modal. */
    method Allocate(d: Driver, putSucceeded: bool)
      requires Valid() && driverModal.Some? && d in FilteredDrivers(driverSearch)
      modifies this
      ensures Valid()
      ensures putSucceeded ==>
        bookings == ApplyStatusUpdate(old(bookings), old(driverModal).value.id, "Confirmed", Some(d.name))
        && driverModal == None
      ensures !putSucceeded ==> bookings == old(bookings) && driverModal == old(driverModal)
      ensures searchQuery == old(searchQuery) && loading == old(loading) && driverSearch == old(driverSearch)
    {
      HandleStatusUpdate(driverModal.value.id, "Confirmed", Some(d.name), putSucceeded);
    }

    /** The three stat cards: total, pending and confirmed among the shown bookings. */
    function Stats(): (r: (nat, nat, nat))
      reads this
      requires Valid()
      ensures r.0 == |filtered| && r.1 + r.2 <= r.0
      ensures r.1 == multiset(Statuses(filtered))["Pending"] && r.1 == CountStatus(filtered, "Pending")
      ensures r.2 == multiset(Statuses(filtered))["Confirmed"] && r.2 == CountStatus(filtered, "Confirmed")
    {
      PendingPlusConfirmedAtMostTotal(filtered);
      (|filtered|, CountStatus(filtered, "Pending"), CountStatus(filtered, "Confirmed"))
    }
  }
}
