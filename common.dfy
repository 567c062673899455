/** Vocabulary shared by the booking-and-payment flow. */
module Common {

  /** A value that may be absent: a configuration setting, a capture timestamp, a gateway id. */
  datatype Option<+T> = None | Some(value: T) {
    /** The value, or `default` when absent (Python's `getattr(obj, name, default)`). */
    function GetOr(default: T): T {
      match this
      case Some(v) => v
      case None => default
    }
  }

  /** A calendar date as a day ordinal: consecutive dates differ by one. */
  type Day = int

  /** A point in time as read from the clock; only its identity matters here. */
  type Instant = int

  /** Money as exact reals: a choice of this model, which leaves the source's field types aside. */
  type Money = real

  type UserId = nat
  type HouseId = nat
  type BookingId = nat
  type PaymentId = nat

  /** Who is making a request: nobody signed in, or a signed-in user. */
  datatype Viewer = Anonymous | SignedIn(user: UserId)
}
