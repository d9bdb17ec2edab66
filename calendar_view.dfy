/**
 * The bookings calendar (src/app/bookings/CalendarView.tsx): the fetched
 * bookings become calendar events, one per booking, in order.
 */
module CalendarView {
  import opened Wrappers
  import opened Js

  datatype UserRef = UserRef(name: string)
  datatype TourRef = TourRef(title: string)

  datatype Booking = Booking(id: int, people: int, user: Option<UserRef>, tour: Option<TourRef>, date: string)

  /** `new Date(text)`, kept opaque. */
  datatype Instant = DateOf(text: string)

  datatype Event = Event(
    id: int,
    title: string,
    start: Instant,
    end: Instant,
    people: int,
    user: Option<UserRef>,
    tour: Option<TourRef>,
    date: string)

  /** `b.tour?.title || "Tour"`. */
  function TourLabel(b: Booking): (s: string)
    ensures s != ""
    ensures b.tour.Some? && b.tour.value.title != "" ==> s == b.tour.value.title
    ensures !(b.tour.Some? && b.tour.value.title != "") ==> s == "Tour"
  {
    OrElse(if b.tour.Some? then Some(b.tour.value.title) else None, "Tour")
  }

  /** The event for one booking: its title names the tour and the party
      size, both ends are the booking's date, the rest is copied. */
  function ToEvent(b: Booking): (e: Event)
    ensures e.title == TourLabel(b) + " (" + IntToString(b.people) + " people)"
    ensures e.start == e.end == DateOf(b.date)
    ensures e.id == b.id && e.people == b.people && e.user == b.user && e.tour == b.tour && e.date == b.date
  {
    Event(b.id, TourLabel(b) + " (" + IntToString(b.people) + " people)", DateOf(b.date), DateOf(b.date),
          b.people, b.user, b.tour, b.date)
  }

  /** `bookings.map(...)`: one event per booking, in the same order. */
  function ToEvents(bookings: seq<Booking>): (events: seq<Event>)
    ensures |events| == |bookings|
    ensures forall i :: 0 <= i < |bookings| ==> events[i] == ToEvent(bookings[i])
  {
    if bookings == [] then [] else [ToEvent(bookings[0])] + ToEvents(bookings[1..])
  }

  /** Two bookings of the same tour get the same title only when their party sizes agree. */
  lemma TitleDeterminesPeople(a: Booking, b: Booking)
    requires TourLabel(a) == TourLabel(b)
    requires ToEvent(a).title == ToEvent(b).title
    ensures a.people == b.people
  {
    var prefix := TourLabel(a) + " (";
    var sa := IntToString(a.people);
    var sb := IntToString(b.people);
    var tail := " people)";
    assert ToEvent(a).title == prefix + sa + tail;
    assert ToEvent(b).title == prefix + sb + tail;
    assert |sa| == |sb|;
    assert sa == (prefix + sa + tail)[|prefix|..|prefix| + |sa|];
    assert sb == (prefix + sb + tail)[|prefix|..|prefix| + |sb|];
    IntToStringInjective(a.people, b.people);
  }
}
