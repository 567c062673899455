/**
 * Who may see a booking's payment page and a payment's success page: only the
 * booking's owner; anyone else is told the page does not exist.
 */
module Access {
  import opened Common
  import opened PaymentAmounts
  import opened Payments

  datatype Page<T> = LoginRedirect | NotFound | Shown(content: T)

  /** The payment page of a booking, which requires a signed-in user. */
  function PaymentPage(bookings: map<BookingId, Booking>, bookingId: BookingId, viewer: Viewer, s: Settings): (r: Page<Summary>)
    ensures r.LoginRedirect? <==> viewer.Anonymous?
    ensures r.Shown? <==> viewer.SignedIn? && bookingId in bookings && bookings[bookingId].owner == viewer.user
    ensures r.Shown? ==> r.content == Summarize(bookings[bookingId].totalCost, s)
  {
    if viewer.Anonymous? then LoginRedirect
    else if bookingId !in bookings then NotFound
    else if bookings[bookingId].owner != viewer.user then NotFound
    else Shown(Summarize(bookings[bookingId].totalCost, s))
  }

  /**
   * The success page of a payment. It does not require sign-in: an anonymous
   * viewer owns no booking and so gets the not-found page.
   */
  function SuccessPage(payments: map<PaymentId, Payment>, bookings: map<BookingId, Booking>,
                       paymentId: PaymentId, viewer: Viewer): (r: Page<Payment>)
    requires paymentId in payments ==> payments[paymentId].booking in bookings
    ensures !r.LoginRedirect?
    ensures r.Shown? <==> paymentId in payments && viewer.SignedIn?
                          && bookings[payments[paymentId].booking].owner == viewer.user
    ensures r.Shown? ==> r.content == payments[paymentId]
  {
    if paymentId !in payments then NotFound
    else if viewer.Anonymous? || bookings[payments[paymentId].booking].owner != viewer.user then NotFound
    else Shown(payments[paymentId])
  }

  /** A user who does not own the booking cannot tell a missing booking from someone else's. */
  lemma ForeignBookingLooksMissing(bookings: map<BookingId, Booking>, bookingId: BookingId, user: UserId, s: Settings)
    requires bookingId in bookings && bookings[bookingId].owner != user
    ensures PaymentPage(bookings, bookingId, SignedIn(user), s)
            == PaymentPage(bookings - {bookingId}, bookingId, SignedIn(user), s)
            == NotFound
  {
  }
}
