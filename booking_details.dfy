/**
 * The booking details dialog (src/app/dashboard/bookings/BookingDetails.tsx):
 * nothing for a null booking, otherwise the lines it shows, of which the
 * customer and phone labels are derived from the booking.
 */
module BookingDetails {
  import opened Wrappers
  import opened Js

  /** A registered customer; the email may be missing. */
  datatype Customer = Customer(name: string, email: Option<string>)

  datatype Booking = Booking(
    id: int,
    tourTitle: string,
    user: Option<Customer>,
    guestName: Option<string>,
    guestEmail: Option<string>,
    guestPhone: Option<string>,
    date: string,
    people: int,
    status: string,
    total: int)

  /** The lines of the dialog; the date is kept as the booking's date text. */
  datatype Details = Details(tour: string, customer: string, phone: string, date: string, people: int, status: string, total: int)

  /** ` (email)` when the email is truthy, nothing otherwise. */
  function EmailSuffix(email: Option<string>): string {
    if Truthy(email) then " (" + email.value + ")" else ""
  }

  /** The "Customer:" line. */
  function CustomerLabel(b: Booking): string {
    match b.user
    case Some(u) => u.name + EmailSuffix(u.email)
    case None => OrElse(b.guestName, "Guest") + EmailSuffix(b.guestEmail)
  }

  /** The "Phone:" line: the guest phone, or "N/A" when it is null or empty. */
  function PhoneLabel(b: Booking): (s: string)
    ensures s != ""
    ensures Truthy(b.guestPhone) ==> s == b.guestPhone.value
    ensures !Truthy(b.guestPhone) ==> s == "N/A"
  {
    OrElse(b.guestPhone, "N/A")
  }

  /** The component: nothing for a null booking. */
  function Render(booking: Option<Booking>): (r: Option<Details>)
    ensures r.None? <==> booking.None?
    ensures r.Some? ==> r.value.customer == CustomerLabel(booking.value) && r.value.phone == PhoneLabel(booking.value)
  {
    match booking
    case None => None
    case Some(b) => Some(Details(b.tourTitle, CustomerLabel(b), PhoneLabel(b), b.date, b.people, b.status, b.total))
  }

  /** A registered customer is shown by name, with " (email)" exactly when the
      email is present and not empty; the guest fields play no part. */
  lemma RegisteredCustomerLabel(b: Booking, guestName: Option<string>, guestEmail: Option<string>)
    requires b.user.Some?
    ensures var u := b.user.value;
      && CustomerLabel(b) == CustomerLabel(b.(guestName := guestName, guestEmail := guestEmail))
      && CustomerLabel(b)[..|u.name|] == u.name
      && (|CustomerLabel(b)| > |u.name| <==> Truthy(u.email))
      && (Truthy(u.email) ==> CustomerLabel(b)[|u.name|..] == " (" + u.email.value + ")")
  {
  }

  /** A guest is shown by name, or as "Guest" when the name is null or empty,
      with " (guestEmail)" exactly when that email is not empty; the label is never empty. */
  lemma GuestLabel(b: Booking)
    requires b.user.None?
    ensures var name := OrElse(b.guestName, "Guest");
      && name != ""
      && (Truthy(b.guestName) ==> name == b.guestName.value)
      && CustomerLabel(b)[..|name|] == name
      && (|CustomerLabel(b)| > |name| <==> Truthy(b.guestEmail))
      && (Truthy(b.guestEmail) ==> CustomerLabel(b)[|name|..] == " (" + b.guestEmail.value + ")")
  {
  }
}
